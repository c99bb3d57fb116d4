/** The resource model source (AnsibleResourceModelSource): its configuration,
    the runner it starts for the fact-gathering playbook, and the mapping from
    each host's fact document to a node record. Directory and process handling
    around the playbook run are not part of this model; the fact documents
    arrive already parsed, and Gson's serialisation is the abstract `serialize`. */
module ResourceModelSource {
  import opened Base
  import opened Json
  import opened Runner
  import K = Describable

  // ---------------------------------------------------------------- configure

  /** resolveProperty over the plugin configuration: the configured value with
      its data references expanded, or the default (never expanded). `expand`
      is replaceDataReferences over the project's data context. */
  function ResolveConfig(conf: map<string, string>, expand: string -> string,
                         key: string, default: Option<string>): Option<string> {
    if key in conf then Some(expand(conf[key])) else default
  }

  /** A boolean setting: true exactly for the expanded value "true". */
  predicate ConfigFlag(conf: map<string, string>, expand: string -> string, key: string) {
    ResolveConfig(conf, expand, key, None) == Some("true")
  }

  /** The fields configure assigns. Before configure, every string is absent,
      the Boolean objects are null and the primitive booleans false. */
  datatype SourceConfig = SourceConfig(
    inventory: Option<string>,
    gatherFacts: bool,
    ignoreErrors: bool,
    limit: Option<string>,
    ignoreTagPrefix: Option<string>,
    importInventoryVars: bool,
    ignoreInventoryVars: Option<string>,
    extraTag: Option<string>,
    sshAuthType: Option<string>,
    sshUser: Option<string>,
    sshPrivateKeyFile: Option<string>,
    sshPassword: Option<string>,
    sshTimeout: Option<int>,
    become: Option<bool>,
    becomeMethod: Option<string>,
    becomeUser: Option<string>,
    becomePassword: Option<string>,
    configFile: Option<string>,
    vaultFile: Option<string>,
    vaultPassword: Option<string>,
    baseDirectoryPath: Option<string>,
    binariesDirectoryPath: Option<string>,
    extraParameters: Option<string>)

  const Unconfigured: SourceConfig :=
    SourceConfig(None, false, false, None, None, false, None, None, None, None, None, None, None,
                 None, None, None, None, None, None, None, None, None, None)

  /** The prefix of configure's failure message (the parser's own message follows it). */
  const TimeoutMessage: string := "Can't parse timeout value : "

  /** The ssh timeout: absent, a 32-bit integer, or a configuration error. */
  function TimeoutSetting(conf: map<string, string>, expand: string -> string): (r: Result<Option<int>>)
    ensures ResolveConfig(conf, expand, K.SshTimeout, None).None? ==> r == Success(None)
    ensures r.Failure? <==>
              ResolveConfig(conf, expand, K.SshTimeout, None).Some? &&
              ParseInt(ResolveConfig(conf, expand, K.SshTimeout, None).value).None?
    ensures r.Failure? ==> r.error == ConfigurationError(TimeoutMessage)
    ensures r.Success? && r.value.Some? ==>
              ParseInt(ResolveConfig(conf, expand, K.SshTimeout, None).value) == r.value &&
              -0x8000_0000 <= r.value.value < 0x8000_0000
  {
    match ResolveConfig(conf, expand, K.SshTimeout, None)
    case None => Success(None)
    case Some(text) =>
      match ParseInt(text)
      case None => Failure(ConfigurationError(TimeoutMessage))
      case Some(n) => Success(Some(n))
  }

  /** Every field as a successful configure leaves it. */
  function Configured(conf: map<string, string>, expand: string -> string): SourceConfig {
    SourceConfig(
      inventory := ResolveConfig(conf, expand, K.Inventory, None),
      gatherFacts := ConfigFlag(conf, expand, K.GatherFacts),
      ignoreErrors := ConfigFlag(conf, expand, K.IgnoreErrors),
      limit := ResolveConfig(conf, expand, K.Limit, None),
      ignoreTagPrefix := ResolveConfig(conf, expand, K.IgnoreTags, None),
      importInventoryVars := ConfigFlag(conf, expand, K.ImportInventoryVars),
      ignoreInventoryVars := ResolveConfig(conf, expand, K.IgnoreInventoryVars, None),
      extraTag := ResolveConfig(conf, expand, K.ExtraTag, None),
      sshAuthType := ResolveConfig(conf, expand, K.SshAuthType, Some(K.AuthenticationTypeName(K.PrivateKey))),
      sshUser := ResolveConfig(conf, expand, K.SshUser, None),
      sshPrivateKeyFile := ResolveConfig(conf, expand, K.SshKeyPath, None),
      sshPassword := ResolveConfig(conf, expand, K.SshPassword, None),
      sshTimeout := if TimeoutSetting(conf, expand).Success? then TimeoutSetting(conf, expand).value else None,
      become := Some(ConfigFlag(conf, expand, K.Become)),
      becomeMethod := ResolveConfig(conf, expand, K.BecomeMethod, None),
      becomeUser := ResolveConfig(conf, expand, K.BecomeUser, None),
      becomePassword := ResolveConfig(conf, expand, K.BecomePassword, None),
      configFile := ResolveConfig(conf, expand, K.ConfigFilePath, None),
      vaultFile := ResolveConfig(conf, expand, K.VaultPath, None),
      vaultPassword := ResolveConfig(conf, expand, K.VaultPassword, None),
      baseDirectoryPath := ResolveConfig(conf, expand, K.BaseDirPath, None),
      binariesDirectoryPath := ResolveConfig(conf, expand, K.BinariesDirPath, None),
      extraParameters := ResolveConfig(conf, expand, K.ExtraParam, None))
  }

  /** The fields after a configure that fails on the timeout: those assigned
      before the parse hold their new values, the timeout is cleared, and the
      rest keep what they had. */
  function AfterFailedConfigure(before: SourceConfig, conf: map<string, string>, expand: string -> string): SourceConfig {
    var c := Configured(conf, expand);
    before.(inventory := c.inventory, gatherFacts := c.gatherFacts, ignoreErrors := c.ignoreErrors,
            limit := c.limit, ignoreTagPrefix := c.ignoreTagPrefix, importInventoryVars := c.importInventoryVars,
            ignoreInventoryVars := c.ignoreInventoryVars, extraTag := c.extraTag, sshAuthType := c.sshAuthType,
            sshUser := c.sshUser, sshPrivateKeyFile := c.sshPrivateKeyFile, sshPassword := c.sshPassword,
            sshTimeout := None)
  }

  /** The boolean settings are true only for exactly "true" after expansion
      ("TRUE" or "yes" leave them false), and the auth type defaults to privateKey. */
  lemma ConfiguredFlagsAreExactTrue(conf: map<string, string>, expand: string -> string)
    ensures var c := Configured(conf, expand);
            (c.gatherFacts <==> K.GatherFacts in conf && expand(conf[K.GatherFacts]) == "true") &&
            (c.ignoreErrors <==> K.IgnoreErrors in conf && expand(conf[K.IgnoreErrors]) == "true") &&
            (c.importInventoryVars <==> K.ImportInventoryVars in conf && expand(conf[K.ImportInventoryVars]) == "true") &&
            (c.become == Some(K.Become in conf && expand(conf[K.Become]) == "true"))
    ensures K.SshAuthType !in conf ==> Configured(conf, expand).sshAuthType == Some("privateKey")
    ensures K.SshAuthType in conf ==> Configured(conf, expand).sshAuthType == Some(expand(conf[K.SshAuthType]))
  {
  }

  /** configure fails exactly when a timeout is configured whose expansion is
      not a 32-bit integer. */
  lemma ConfigureFailsOnlyOnTimeout(conf: map<string, string>, expand: string -> string)
    ensures TimeoutSetting(conf, expand).Failure? <==>
            K.SshTimeout in conf && ParseInt(expand(conf[K.SshTimeout])).None?
    ensures TimeoutSetting(conf, expand).Success? ==>
            Configured(conf, expand).sshTimeout == TimeoutSetting(conf, expand).value
  {
  }

  // ------------------------------------------------------ buildAnsibleRunner

  const GatherPlaybook: string := "gather-hosts.yml"

  /** A limit reaches the runner only when it is set and not empty. */
  predicate LimitGiven(s: SourceConfig) {
    s.limit.Some? && s.limit.value != ""
  }

  /** What the runner makes of the auth type: the private-key branch, the
      password branch, or neither. */
  datatype AuthKind = KeyAuth | PasswordAuth | NoAuth

  /** The auth type compared with each constant's name ignoring letter case,
      private key first. */
  function AuthKindOf(authType: string): (k: AuthKind)
    ensures k == KeyAuth <==> EqualsIgnoreCase(authType, K.AuthenticationTypeName(K.PrivateKey))
    ensures k == PasswordAuth <==> !EqualsIgnoreCase(authType, K.AuthenticationTypeName(K.PrivateKey)) &&
                                   EqualsIgnoreCase(authType, K.AuthenticationTypeName(K.Password))
  {
    if EqualsIgnoreCase(authType, K.AuthenticationTypeName(K.PrivateKey)) then KeyAuth
    else if EqualsIgnoreCase(authType, K.AuthenticationTypeName(K.Password)) then PasswordAuth
    else NoAuth
  }

  predicate UsesPrivateKey(s: SourceConfig)
    requires s.sshAuthType.Some?
  {
    AuthKindOf(s.sshAuthType.value) == KeyAuth
  }

  predicate UsesPassword(s: SourceConfig)
    requires s.sshAuthType.Some?
  {
    AuthKindOf(s.sshAuthType.value) == PasswordAuth
  }

  predicate KeyFileUnreadable(s: SourceConfig, files: map<string, seq<byte>>)
    requires s.sshAuthType.Some?
  {
    UsesPrivateKey(s) && s.sshPrivateKeyFile.Some? && s.sshPrivateKeyFile.value !in files
  }

  predicate VaultFileUnreadable(s: SourceConfig, files: map<string, seq<byte>>) {
    s.vaultFile.Some? && s.vaultFile.value !in files
  }

  function BaseRunner(s: SourceConfig, systemDebug: bool): Runner {
    NewRunner(PlaybookFile(GatherPlaybook)).(debug := systemDebug, limit := if LimitGiven(s) then s.limit else None)
  }

  function RunnerAuth(s: SourceConfig, r: Runner, files: map<string, seq<byte>>,
                      decode: seq<byte> -> string): (res: Result<Runner>)
    requires s.sshAuthType.Some?
    ensures res.Failure? <==> KeyFileUnreadable(s, files)
    ensures UsesPrivateKey(s) && s.sshPrivateKeyFile.Some? && res.Success? ==>
              res.value == r.(sshPrivateKey := Some(decode(files[s.sshPrivateKeyFile.value])))
    ensures UsesPassword(s) && s.sshPassword.Some? ==>
              res == Success(r.(sshUsePassword := true, sshPass := s.sshPassword))
    ensures (UsesPrivateKey(s) && s.sshPrivateKeyFile.None?) || (!UsesPrivateKey(s) && !(UsesPassword(s) && s.sshPassword.Some?)) ==>
              res == Success(r)
  {
    if UsesPrivateKey(s) then
      if s.sshPrivateKeyFile.None? then Success(r)
      else if s.sshPrivateKeyFile.value !in files then
        Failure(ResourceModelSourceError("Could not read privatekey file " + s.sshPrivateKeyFile.value))
      else Success(r.(sshPrivateKey := Some(decode(files[s.sshPrivateKeyFile.value]))))
    else if UsesPassword(s) && s.sshPassword.Some? then
      Success(r.(sshUsePassword := true, sshPass := s.sshPassword))
    else Success(r)
  }

  function RunnerOptions(s: SourceConfig, r: Runner): Runner {
    r.(inventory := if s.inventory.Some? then Some(InventoryPath(s.inventory.value)) else r.inventory,
       ignoreErrors := s.ignoreErrors || r.ignoreErrors,
       sshUser := if s.sshUser.Some? then s.sshUser else r.sshUser,
       sshTimeout := if s.sshTimeout.Some? then s.sshTimeout else r.sshTimeout,
       become := if s.become.Some? then s.become else r.become,
       becomeUser := if s.becomeUser.Some? then s.becomeUser else r.becomeUser,
       becomeMethod := if s.becomeMethod.Some? then s.becomeMethod else r.becomeMethod,
       becomePassword := if s.becomePassword.Some? then s.becomePassword else r.becomePassword,
       configFile := if s.configFile.Some? then s.configFile else r.configFile)
  }

  function RunnerVault(s: SourceConfig, r: Runner, files: map<string, seq<byte>>,
                       decode: seq<byte> -> string): (res: Result<Runner>)
    ensures res.Failure? <==> VaultFileUnreadable(s, files)
    ensures res.Failure? ==> res.error == ResourceModelSourceError("Could not read vault file " + s.vaultFile.value)
    ensures res.Success? ==> res.value == r.(vaultPass := res.value.vaultPass)
    ensures res.Success? && s.vaultFile.Some? ==> res.value.vaultPass == Some(decode(files[s.vaultFile.value]))
    ensures res.Success? && s.vaultFile.None? ==>
              res.value.vaultPass == (if s.vaultPassword.Some? then s.vaultPassword else r.vaultPass)
  {
    var withPassword := if s.vaultPassword.Some? then r.(vaultPass := s.vaultPassword) else r;
    if s.vaultFile.None? then Success(withPassword)
    else if s.vaultFile.value !in files then
      Failure(ResourceModelSourceError("Could not read vault file " + s.vaultFile.value))
    else Success(withPassword.(vaultPass := Some(decode(files[s.vaultFile.value]))))
  }

  function RunnerDirectories(s: SourceConfig, r: Runner): Runner {
    r.(baseDirectory := if s.baseDirectoryPath.Some? then s.baseDirectoryPath else r.baseDirectory,
       binariesDirectory := if s.binariesDirectoryPath.Some? then s.binariesDirectoryPath else r.binariesDirectory,
       extraParams := if s.extraParameters.Some? then s.extraParameters else r.extraParams)
  }

  /** buildAnsibleRunner: the fact-gathering playbook with the configured run
      options. `systemDebug` is whether the system property ansible.debug is
      "true"; `files` is the local file system. The auth type is dereferenced,
      so the source calls this only after configure. */
  function GatherRunner(s: SourceConfig, systemDebug: bool, files: map<string, seq<byte>>,
                        decode: seq<byte> -> string): (r: Result<Runner>)
    requires s.sshAuthType.Some?
    ensures r.Failure? <==> KeyFileUnreadable(s, files) || VaultFileUnreadable(s, files)
    ensures KeyFileUnreadable(s, files) ==>
              r == Failure(ResourceModelSourceError("Could not read privatekey file " + s.sshPrivateKeyFile.value))
    ensures !KeyFileUnreadable(s, files) && VaultFileUnreadable(s, files) ==>
              r == Failure(ResourceModelSourceError("Could not read vault file " + s.vaultFile.value))
  {
    var authenticated :- RunnerAuth(s, BaseRunner(s, systemDebug), files, decode);
    var withVault :- RunnerVault(s, RunnerOptions(s, authenticated), files, decode);
    Success(RunnerDirectories(s, withVault))
  }

  /** The fact-gathering runner runs the bundled playbook with the given debug
      switch, and receives a limit only when one is set and not empty. */
  lemma GatherRunnerTargetAndLimit(s: SourceConfig, systemDebug: bool, files: map<string, seq<byte>>,
                                   decode: seq<byte> -> string)
    requires s.sshAuthType.Some? && GatherRunner(s, systemDebug, files, decode).Success?
    ensures var r := GatherRunner(s, systemDebug, files, decode).value;
            r.target == PlaybookFile(GatherPlaybook) && r.debug == systemDebug &&
            r.limit == (if LimitGiven(s) then s.limit else None)
  {
  }

  /** A password is used only for the password auth type with a password set;
      for the private-key type a key file's content is the key. */
  lemma GatherRunnerCredentials(s: SourceConfig, systemDebug: bool, files: map<string, seq<byte>>,
                                decode: seq<byte> -> string)
    requires s.sshAuthType.Some? && GatherRunner(s, systemDebug, files, decode).Success?
    ensures var r := GatherRunner(s, systemDebug, files, decode).value;
            (r.sshUsePassword <==> UsesPassword(s) && s.sshPassword.Some?) &&
            (r.sshUsePassword ==> r.sshPass == s.sshPassword) &&
            (UsesPrivateKey(s) && s.sshPrivateKeyFile.Some? ==>
               r.sshPrivateKey == Some(decode(files[s.sshPrivateKeyFile.value])))
  {
  }

  /** The vault file's content overrides the vault password when both are
      set; the configured inventory path is passed as it is. */
  lemma GatherRunnerVaultAndInventory(s: SourceConfig, systemDebug: bool, files: map<string, seq<byte>>,
                                      decode: seq<byte> -> string)
    requires s.sshAuthType.Some? && GatherRunner(s, systemDebug, files, decode).Success?
    ensures var r := GatherRunner(s, systemDebug, files, decode).value;
            (r.vaultPass == if s.vaultFile.Some? then Some(decode(files[s.vaultFile.value])) else s.vaultPassword) &&
            r.inventory == (if s.inventory.Some? then Some(InventoryPath(s.inventory.value)) else None)
  {
  }

  /** The auth type is compared ignoring letter case: two spellings that
      differ only in case take the same branch, and "PASSWORD" selects the
      password branch. The runner reads the auth type only through its kind. */
  lemma AuthTypeIgnoresLetterCase(a: string, b: string)
    requires EqualsIgnoreCase(a, b)
    ensures AuthKindOf(a) == AuthKindOf(b)
    ensures AuthKindOf("PASSWORD") == PasswordAuth && AuthKindOf("PrivateKey") == KeyAuth
  {
    assert ToLower("PASSWORD") == "password" && ToLower("PrivateKey") == "privatekey";
  }

  // ------------------------------------------------------------- fact ingestion

  /** A node record as the fact mapping fills it (the NodeEntryImpl setters
      and its attribute map). */
  datatype NodeRecord = NodeRecord(
    nodename: string,
    hostname: string,
    username: Option<string>,
    tags: set<string>,
    description: Option<string>,
    osFamily: Option<string>,
    osName: Option<string>,
    osArch: Option<string>,
    osVersion: Option<string>,
    attributes: map<string, string>)

  /** root.get(name).getAsString(): fails when the member is absent (a null
      dereference) or has no string form. */
  function MemberString(root: Json, name: string): (r: Result<string>)
    requires root.JObject?
    ensures r.Success? <==> name in root.members && AsString(root.members[name]).Some?
    ensures r.Success? ==> Some(r.value) == AsString(root.members[name])
  {
    if name in root.members && AsString(root.members[name]).Some? then Success(AsString(root.members[name]).value)
    else Failure(MalformedFact(name))
  }

  /** An optional string fact: absent (or JSON null, when `nullMeansAbsent`)
      leaves the field unset, otherwise it must have a string form. */
  function OptionalFact(root: Json, name: string, nullMeansAbsent: bool): (r: Result<Option<string>>)
    requires root.JObject?
    ensures r.Success? && r.value.None? <==> !root.Has(name) || (nullMeansAbsent && root.members[name].JNull?)
    ensures r.Success? && r.value.Some? ==> root.Has(name) && Some(r.value.value) == AsString(root.members[name])
    ensures r.Failure? <==> root.Has(name) && !(nullMeansAbsent && root.members[name].JNull?) &&
                            AsString(root.members[name]).None?
  {
    if !root.Has(name) || (nullMeansAbsent && root.members[name].JNull?) then Success(None)
    else var v :- MemberString(root, name); Success(Some(v))
  }

  /** The address: ansible_host, else the deprecated ansible_ssh_host, else the
      inventory name. A present value without a string form is only warned
      about, and the inventory name stays. */
  function HostnameOf(root: Json, inventoryHostname: string): (r: string)
    requires root.JObject?
    ensures root.Has("ansible_host") && AsString(root.members["ansible_host"]).Some? ==>
              r == AsString(root.members["ansible_host"]).value
    ensures !root.Has("ansible_host") && root.Has("ansible_ssh_host") && AsString(root.members["ansible_ssh_host"]).Some? ==>
              r == AsString(root.members["ansible_ssh_host"]).value
    ensures r != inventoryHostname ==>
              (root.Has("ansible_host") && AsString(root.members["ansible_host"]) == Some(r)) ||
              (!root.Has("ansible_host") && root.Has("ansible_ssh_host") && AsString(root.members["ansible_ssh_host"]) == Some(r))
  {
    if root.Has("ansible_host") then AsString(root.members["ansible_host"]).GetOr(inventoryHostname)
    else if root.Has("ansible_ssh_host") then AsString(root.members["ansible_ssh_host"]).GetOr(inventoryHostname)
    else inventoryHostname
  }

  /** A present member read as an optional string: its string form, or the
      malformed-fact failure naming it when it has none. */
  predicate ReadsMember(root: Json, name: string, r: Result<Option<string>>)
    requires root.JObject? && name in root.members
  {
    (r.Success? <==> AsString(root.members[name]).Some?) &&
    (r.Success? ==> r.value == AsString(root.members[name])) &&
    (r.Failure? ==> r.error == MalformedFact(name))
  }

  /** The login: ansible_user, else ansible_ssh_user, else the ansible_user_id
      fact, else the configured ssh user. */
  function UsernameOf(root: Json, sshUser: Option<string>): (r: Result<Option<string>>)
    requires root.JObject?
    ensures root.Has("ansible_user") ==> ReadsMember(root, "ansible_user", r)
    ensures !root.Has("ansible_user") && root.Has("ansible_ssh_user") ==> ReadsMember(root, "ansible_ssh_user", r)
    ensures !root.Has("ansible_user") && !root.Has("ansible_ssh_user") && root.Has("ansible_user_id") ==>
              ReadsMember(root, "ansible_user_id", r)
    ensures !root.Has("ansible_user") && !root.Has("ansible_ssh_user") && !root.Has("ansible_user_id") ==>
              r == Success(sshUser)
  {
    if root.Has("ansible_user") then var u :- MemberString(root, "ansible_user"); Success(Some(u))
    else if root.Has("ansible_ssh_user") then var u :- MemberString(root, "ansible_ssh_user"); Success(Some(u))
    else if root.Has("ansible_user_id") then var u :- MemberString(root, "ansible_user_id"); Success(Some(u))
    else Success(sshUser)
  }

  /** The string forms of JSON values, or None when one has none. */
  function Strings(elems: seq<Json>): (r: Option<seq<string>>)
    ensures r.Some? <==> forall i :: 0 <= i < |elems| ==> AsString(elems[i]).Some?
    ensures r.Some? ==> |r.value| == |elems| && forall i :: 0 <= i < |elems| ==> Some(r.value[i]) == AsString(elems[i])
  {
    if elems == [] then Some([])
    else
      match Strings(elems[..|elems| - 1])
      case None => None
      case Some(init) =>
        match AsString(elems[|elems| - 1])
        case None => None
        case Some(last) => Some(init + [last])
  }

  /** The group_names fact: an array whose elements all have string forms. */
  function GroupNamesFact(root: Json): Result<seq<string>>
    requires root.JObject?
  {
    if "group_names" in root.members && root.members["group_names"].JArray? then
      match Strings(root.members["group_names"].elems)
      case None => Failure(MalformedFact("group_names"))
      case Some(names) => Success(names)
    else Failure(MalformedFact("group_names"))
  }

  /** A group name is dropped when it starts with a non-empty ignore prefix. */
  predicate IgnoredTag(name: string, prefix: Option<string>) {
    prefix.Some? && prefix.value != "" && StartsWith(name, prefix.value)
  }

  function ExtraTagSet(extraTag: Option<string>): set<string> {
    if extraTag.Some? && extraTag.value != "" then {extraTag.value} else {}
  }

  /** The node's tags: its groups minus the ignored ones, plus the extra tag. */
  function TagsOf(names: seq<string>, prefix: Option<string>, extraTag: Option<string>): (tags: set<string>)
    ensures forall t :: t in tags <==>
              (t in names && !IgnoredTag(t, prefix)) || (extraTag == Some(t) && t != "")
  {
    (set n | n in names && !IgnoredTag(n, prefix)) + ExtraTagSet(extraTag)
  }

  /** The tag loop over group_names. */
  method CollectTags(groups: seq<Json>, prefix: Option<string>, extraTag: Option<string>)
    returns (r: Result<set<string>>)
    ensures Strings(groups).None? ==> r.Failure?
    ensures Strings(groups).Some? ==> r == Success(TagsOf(Strings(groups).value, prefix, extraTag))
  {
    var tags: set<string> := {};
    ghost var names: seq<string> := [];
    var i := 0;
    while i < |groups|
      invariant 0 <= i <= |groups|
      invariant Strings(groups[..i]) == Some(names)
      invariant tags == set n | n in names && !IgnoredTag(n, prefix)
    {
      assert groups[..i + 1][..i] == groups[..i];
      var name := AsString(groups[i]);
      if name.None? {
        assert !(forall j :: 0 <= j < |groups| ==> AsString(groups[j]).Some?);
        return Failure(MalformedFact("group_names"));
      }
      ghost var names' := names + [name.value];
      if !IgnoredTag(name.value, prefix) {
        tags := tags + {name.value};
      }
      names := names';
      i := i + 1;
    }
    assert groups[..i] == groups;
    tags := tags + ExtraTagSet(extraTag);
    r := Success(tags);
  }

  /** The fallback description from the distribution and its version: each
      that is set is followed by a blank, and the text is trimmed; with neither
      set there is no description. */
  function JoinedDescription(dist: Option<string>, version: Option<string>): (r: Option<string>)
    ensures r.None? <==> dist.None? && version.None?
    ensures dist.Some? && version.Some? ==> r == Some(Trim((dist.value + " ") + (version.value + " ")))
    ensures dist.Some? && version.None? ==> r == Some(Trim(dist.value + " "))
    ensures dist.None? && version.Some? ==> r == Some(Trim(version.value + " "))
  {
    var text := (if dist.Some? then dist.value + " " else "")
              + (if version.Some? then version.value + " " else "");
    if text == "" then None
    else if dist.Some? && version.Some? then Some(Trim(text))
    else if dist.Some? then assert text == dist.value + " "; Some(Trim(text))
    else assert text == version.value + " "; Some(Trim(text))
  }

  /** A distribution and version without surrounding blanks give "dist version". */
  lemma JoinedDescriptionOfPlainWords(dist: string, version: string)
    requires |dist| > 0 && dist[0] > ' ' && |version| > 0 && version[|version| - 1] > ' '
    ensures JoinedDescription(Some(dist), Some(version)) == Some(dist + " " + version)
  {
    var w := dist + " " + version;
    assert (dist + " ") + (version + " ") == w + " ";
    assert w[0] == dist[0] && w[|w| - 1] == version[|version| - 1];
    TrimOfWordAndBlank(w);
  }

  /** The description: ansible_lsb.description when present; otherwise the
      distribution and its version joined as above. */
  function DescriptionOf(root: Json): (r: Result<Option<string>>)
    requires root.JObject?
    ensures root.Has("ansible_lsb") && !root.members["ansible_lsb"].JObject? ==> r == Failure(MalformedFact("ansible_lsb"))
    ensures root.Has("ansible_lsb") && root.members["ansible_lsb"].Has("description") ==>
              var d := AsString(root.members["ansible_lsb"].members["description"]);
              (d.Some? ==> r == Success(d)) && (d.None? ==> r.Failure?)
    ensures !root.Has("ansible_lsb") || (root.members["ansible_lsb"].JObject? && !root.members["ansible_lsb"].Has("description")) ==>
              var dist := OptionalFact(root, "ansible_distribution", true);
              var version := OptionalFact(root, "ansible_distribution_version", false);
              (r.Failure? <==> dist.Failure? || (dist.Success? && version.Failure?)) &&
              (r.Success? ==> r.value == JoinedDescription(dist.value, version.value))
  {
    if root.Has("ansible_lsb") && !root.members["ansible_lsb"].JObject? then Failure(MalformedFact("ansible_lsb"))
    else if root.Has("ansible_lsb") && root.members["ansible_lsb"].Has("description") then
      match AsString(root.members["ansible_lsb"].members["description"])
      case None => Failure(MalformedFact("ansible_lsb.description"))
      case Some(d) => Success(Some(d))
    else
      var distribution :- OptionalFact(root, "ansible_distribution", true);
      var version :- OptionalFact(root, "ansible_distribution_version", false);
      Success(JoinedDescription(distribution, version))
  }

  /** The path walk: a segment of decimal digits indexes an array when it is in
      range, any segment names a member of an object, anything else ends the
      walk with nothing. */
  function Walk(e: Json, parts: seq<string>): (r: Option<Json>)
    ensures parts == [] ==> r == Some(e)
    ensures parts != [] && !e.JArray? && !e.JObject? ==> r.None?
    ensures parts != [] && e.JObject? && parts[0] !in e.members ==> r.None?
    decreases |parts|
  {
    if parts == [] then Some(e)
    else if e.JArray? && AllDigits(parts[0]) && DigitsValue(parts[0]) < |e.elems| then
      Walk(e.elems[DigitsValue(parts[0])], parts[1..])
    else if e.JObject? && parts[0] in e.members then Walk(e.members[parts[0]], parts[1..])
    else None
  }

  /** The loop that reassigns the current element segment by segment. */
  method WalkPath(root: Json, parts: seq<string>) returns (e: Option<Json>)
    ensures e == Walk(root, parts)
  {
    e := Some(root);
    var i := 0;
    while i < |parts|
      invariant 0 <= i <= |parts|
      invariant e.Some? && Walk(root, parts) == Walk(e.value, parts[i..])
      decreases |parts| - i
    {
      var ele := e.value;
      var part := parts[i];
      assert parts[i..][1..] == parts[i + 1..];
      if ele.JArray? && AllDigits(part) && DigitsValue(part) < |ele.elems| {
        e := Some(ele.elems[DigitsValue(part)]);
      } else if ele.JObject? && part in ele.members {
        e := Some(ele.members[part]);
      } else {
        return None;
      }
      i := i + 1;
    }
  }

  /** A primitive's text, when it is not empty. */
  function NonEmptyText(e: Json): (r: Option<string>)
    ensures r.Some? <==> e.IsPrimitive() && AsString(e).value != ""
    ensures r.Some? ==> AsString(e) == r
  {
    if e.IsPrimitive() && AsString(e).value != "" then AsString(e) else None
  }

  /** The value of one interesting item: a dotted path is walked, a plain name
      is looked up at the top level; either way only a primitive with a
      non-empty text counts. */
  function ItemValue(root: Json, path: string): (r: Option<string>)
    requires root.JObject?
    ensures r.Some? ==> r.value != ""
  {
    var parts := JavaSplit(path, '.');
    if |parts| > 1 then
      match Walk(root, parts)
      case None => None
      case Some(e) => NonEmptyText(e)
    else if path in root.members then NonEmptyText(root.members[path])
    else None
  }

  /** An item has a value exactly when the element its path reaches (by the
      walk for a dotted path, at the top level for a plain name) exists and is
      a primitive with a non-empty text, and the value is that text. */
  lemma ItemValueReadsPrimitive(root: Json, path: string)
    requires root.JObject?
    ensures var parts := JavaSplit(path, '.'); |parts| > 1 ==>
              var e := Walk(root, parts);
              (ItemValue(root, path).Some? <==> e.Some? && e.value.IsPrimitive() && AsString(e.value).value != "") &&
              (ItemValue(root, path).Some? ==> AsString(e.value) == ItemValue(root, path))
    ensures |JavaSplit(path, '.')| <= 1 ==>
              (ItemValue(root, path).Some? <==> path in root.members && root.members[path].IsPrimitive() &&
                                                AsString(root.members[path]).value != "") &&
              (ItemValue(root, path).Some? ==> AsString(root.members[path]) == ItemValue(root, path))
  {
  }

  /** A walk goes through an array only at an index in range: a digit segment
      at or beyond the array's length, or any other segment, ends it with nothing. */
  lemma WalkArrayIndex(e: Json, parts: seq<string>)
    requires e.JArray? && parts != []
    ensures AllDigits(parts[0]) && DigitsValue(parts[0]) < |e.elems| ==>
              Walk(e, parts) == Walk(e.elems[DigitsValue(parts[0])], parts[1..])
    ensures !(AllDigits(parts[0]) && DigitsValue(parts[0]) < |e.elems|) ==> Walk(e, parts).None?
  {
  }

  /** Walking a path in two halves is walking the whole path. */
  lemma {:induction false} WalkConcat(e: Json, p: seq<string>, q: seq<string>)
    ensures Walk(e, p + q) == if Walk(e, p).Some? then Walk(Walk(e, p).value, q) else None
    decreases |p|
  {
    if p != [] {
      assert (p + q)[0] == p[0] && (p + q)[1..] == p[1..] + q;
      if e.JArray? && AllDigits(p[0]) && DigitsValue(p[0]) < |e.elems| {
        WalkConcat(e.elems[DigitsValue(p[0])], p[1..], q);
      } else if e.JObject? && p[0] in e.members {
        WalkConcat(e.members[p[0]], p[1..], q);
      }
    } else {
      assert p + q == q;
    }
  }

  /** The interesting facts: fact path, then attribute name. The attribute
      names are all different, so the order of the table does not matter. */
  const InterestingItems: seq<(string, string)> := [
    ("ansible_form_factor", "form_factor"),
    ("ansible_system_vendor", "system_vendor"),
    ("ansible_product_name", "product_name"),
    ("ansible_product_version", "product_version"),
    ("ansible_product_serial", "product_serial"),
    ("ansible_bios_version", "bios_version"),
    ("ansible_bios_date", "bios_date"),
    ("ansible_machine_id", "machine_id"),
    ("ansible_virtualization_type", "virtualization_type"),
    ("ansible_virtualization_role", "virtualization_role"),
    ("ansible_selinux", "selinux"),
    ("ansible_fips", "fips"),
    ("ansible_service_mgr", "service_mgr"),
    ("ansible_pkg_mgr", "pkg_mgr"),
    ("ansible_distribution", "distribution"),
    ("ansible_distribution_version", "distribution_version"),
    ("ansible_distribution_major_version", "distribution_major_version"),
    ("ansible_distribution_release", "distribution_release"),
    ("ansible_lsb.codename", "lsb_codename"),
    ("ansible_domain", "domain"),
    ("ansible_date_time.tz", "tz"),
    ("ansible_date_time.tz_offset", "tz_offset"),
    ("ansible_processor_count", "processor_count"),
    ("ansible_processor_cores", "processor_cores"),
    ("ansible_processor_vcpus", "processor_vcpus"),
    ("ansible_processor_threads_per_core", "processor_threads_per_core"),
    ("ansible_userspace_architecture", "userspace_architecture"),
    ("ansible_userspace_bits", "userspace_bits"),
    ("ansible_memtotal_mb", "memtotal_mb"),
    ("ansible_swaptotal_mb", "swaptotal_mb"),
    ("ansible_processor.0", "processor0"),
    ("ansible_processor.1", "processor1")]

  /** The attributes a table of items contributes. */
  function ItemAttributes(root: Json, items: seq<(string, string)>): (m: map<string, string>)
    requires root.JObject?
    ensures forall a :: a in m ==> m[a] != ""
    decreases |items|
  {
    if items == [] then map[]
    else
      var last := items[|items| - 1];
      var m := ItemAttributes(root, items[..|items| - 1]);
      match ItemValue(root, last.0)
      case None => m
      case Some(v) => m[last.1 := v]
  }

  /** One item's value, walking a dotted path with the loop. */
  method ReadItem(root: Json, path: string) returns (value: Option<string>)
    requires root.JObject?
    ensures value == ItemValue(root, path)
  {
    var parts := JavaSplit(path, '.');
    value := None;
    if |parts| > 1 {
      var e := WalkPath(root, parts);
      if e.Some? {
        value := NonEmptyText(e.value);
      }
    } else if path in root.members {
      value := NonEmptyText(root.members[path]);
    }
  }

  /** The last item of a non-empty table updates the attributes of the others. */
  lemma ItemAttributesLast(root: Json, items: seq<(string, string)>)
    requires root.JObject? && items != []
    ensures var m := ItemAttributes(root, items[..|items| - 1]);
            var last := items[|items| - 1];
            var v := ItemValue(root, last.0);
            ItemAttributes(root, items) == if v.Some? then m[last.1 := v.value] else m
  {
  }

  /** Every item that has a value puts its attribute in the map. */
  lemma {:induction false} ItemAttributesCoverItems(root: Json, items: seq<(string, string)>, j: nat)
    requires root.JObject? && j < |items| && ItemValue(root, items[j].0).Some?
    ensures items[j].1 in ItemAttributes(root, items)
    decreases |items|
  {
    var init := items[..|items| - 1];
    var last := items[|items| - 1];
    var m := ItemAttributes(root, init);
    var v := ItemValue(root, last.0);
    ItemAttributesLast(root, items);
    if j < |items| - 1 {
      assert init[j] == items[j];
      ItemAttributesCoverItems(root, init, j);
    }
  }

  /** Every attribute the items contribute is the value of an item of that name. */
  lemma {:induction false} ItemAttributesComeFromItems(root: Json, items: seq<(string, string)>, a: string)
    requires root.JObject? && a in ItemAttributes(root, items)
    ensures exists j :: 0 <= j < |items| && items[j].1 == a && ItemValue(root, items[j].0) == Some(ItemAttributes(root, items)[a])
    decreases |items|
  {
    var init := items[..|items| - 1];
    var last := items[|items| - 1];
    var m := ItemAttributes(root, init);
    var v := ItemValue(root, last.0);
    ItemAttributesLast(root, items);
    if v.Some? && a == last.1 {
      assert items[|items| - 1].1 == a;
    } else {
      ItemAttributesComeFromItems(root, init, a);
      var j :| 0 <= j < |init| && init[j].1 == a && ItemValue(root, init[j].0) == Some(m[a]);
      assert items[j] == init[j];
    }
  }

  /** No two items of a table name the same attribute. */
  predicate DistinctNames(items: seq<(string, string)>) {
    forall i, j :: 0 <= i < j < |items| ==> items[i].1 != items[j].1
  }

  /** With distinct attribute names, each item that has a value contributes
      exactly that value under its own name. */
  lemma {:induction false} ItemAttributesOfDistinct(root: Json, items: seq<(string, string)>, j: nat)
    requires root.JObject? && DistinctNames(items) && j < |items|
    requires ItemValue(root, items[j].0).Some?
    ensures items[j].1 in ItemAttributes(root, items)
    ensures ItemAttributes(root, items)[items[j].1] == ItemValue(root, items[j].0).value
    decreases |items|
  {
    var init := items[..|items| - 1];
    var last := items[|items| - 1];
    var m := ItemAttributes(root, init);
    ItemAttributesLast(root, items);
    if j < |items| - 1 {
      assert init[j] == items[j];
      assert DistinctNames(init) by {
        forall a, b | 0 <= a < b < |init| ensures init[a].1 != init[b].1 {
          assert init[a] == items[a] && init[b] == items[b];
        }
      }
      ItemAttributesOfDistinct(root, init, j);
      assert last.1 != items[j].1;
    }
  }

  /** One more item updates the attributes gathered so far, on top of any base map. */
  lemma ItemAttributesStep(root: Json, items: seq<(string, string)>, i: nat, base: map<string, string>)
    requires root.JObject? && i < |items|
    ensures var before := base + ItemAttributes(root, items[..i]);
            var v := ItemValue(root, items[i].0);
            base + ItemAttributes(root, items[..i + 1]) == if v.Some? then before[items[i].1 := v.value] else before
  {
    assert items[..i + 1][..i] == items[..i];
  }

  /** The loop over a table of items. */
  method SetItems(root: Json, items: seq<(string, string)>, attributes: map<string, string>)
    returns (r: map<string, string>)
    requires root.JObject?
    ensures r == attributes + ItemAttributes(root, items)
  {
    r := attributes;
    var i := 0;
    while i < |items|
      invariant 0 <= i <= |items|
      invariant r == attributes + ItemAttributes(root, items[..i])
    {
      var item := items[i];
      var value := ReadItem(root, item.0);
      ItemAttributesStep(root, items, i, attributes);
      if value.Some? {
        r := r[item.1 := value.value];
      }
      i := i + 1;
    }
    assert items[..i] == items;
  }

  /** The Ansible special variables, as prefixes of the names never imported. */
  const SpecialVars: seq<string> := [
    "ansible_", "discovered_interpreter_python", "facts", "gather_subset", "group_names", "groups",
    "hostvars", "inventory_dir", "inventory_file", "inventory_hostname", "inventory_hostname_short",
    "module_setup", "omit", "play_hosts", "playbook_dir", "role_name", "role_names", "role_path", "tmpdir"]

  /** The configured ignore prefixes: the comma-separated pieces, trimmed. */
  function IgnorePrefixes(ignore: Option<string>): (ps: seq<string>)
    ensures ignore.Some? && ignore.value != "" ==>
              |ps| == |JavaSplit(ignore.value, ',')| &&
              forall i :: 0 <= i < |ps| ==> ps[i] == Trim(JavaSplit(ignore.value, ',')[i])
    ensures ignore.None? || ignore.value == "" ==> ps == []
  {
    if ignore.Some? && ignore.value != "" then TrimAll(JavaSplit(ignore.value, ',')) else []
  }

  /** Each piece trimmed, in order. */
  function TrimAll(pieces: seq<string>): (r: seq<string>)
    ensures |r| == |pieces| && forall i :: 0 <= i < |pieces| ==> r[i] == Trim(pieces[i])
  {
    seq(|pieces|, i requires 0 <= i < |pieces| => Trim(pieces[i]))
  }

  function SkipList(ignore: Option<string>): seq<string> {
    SpecialVars + IgnorePrefixes(ignore)
  }

  /** The loop that appends the trimmed pieces to the skip list. */
  method AppendTrimmed(list: seq<string>, pieces: seq<string>) returns (r: seq<string>)
    ensures |r| == |list| + |pieces| && r[..|list|] == list
    ensures forall i :: 0 <= i < |pieces| ==> r[|list| + i] == Trim(pieces[i])
    ensures r == list + TrimAll(pieces)
  {
    ghost var trimmed := TrimAll(pieces);
    r := list;
    var i := 0;
    while i < |pieces|
      invariant 0 <= i <= |pieces|
      invariant r == list + trimmed[..i]
    {
      assert trimmed[..i + 1] == trimmed[..i] + [Trim(pieces[i])];
      r := r + [Trim(pieces[i])];
      i := i + 1;
    }
    assert trimmed[..|pieces|] == trimmed;
    assert r[..|list|] == list;
  }

  /** The skip list as getNodes fills it. */
  method BuildSkipList(ignore: Option<string>) returns (list: seq<string>)
    ensures list == SkipList(ignore)
  {
    list := SpecialVars;
    if ignore.Some? && ignore.value != "" {
      list := AppendTrimmed(list, JavaSplit(ignore.value, ','));
    }
  }

  /** skipVar: whether the name starts with one of the prefixes. */
  function SkipVar(hostVar: string, prefixes: seq<string>): (r: bool)
    ensures r <==> exists i :: 0 <= i < |prefixes| && StartsWith(hostVar, prefixes[i])
  {
    if prefixes == [] then false
    else StartsWith(hostVar, prefixes[0]) || SkipVar(hostVar, prefixes[1..])
  }

  /** An imported value: a JSON string verbatim, anything else serialised. */
  function ImportedValue(j: Json, serialize: Json -> string): string {
    if j.JString? then j.s else serialize(j)
  }

  /** The imported variables: every fact whose name starts with no prefix of
      the skip list. */
  function ImportedVars(facts: map<string, Json>, prefixes: seq<string>, serialize: Json -> string)
    : (m: map<string, string>)
    ensures forall k :: k in m <==>
              k in facts && forall i :: 0 <= i < |prefixes| ==> !StartsWith(k, prefixes[i])
    ensures forall k :: k in m && facts[k].JString? ==> m[k] == facts[k].s
  {
    map k | k in facts && !SkipVar(k, prefixes) :: ImportedValue(facts[k], serialize)
  }

  /** The loop over the document's top-level entries. */
  method ImportVars(facts: map<string, Json>, prefixes: seq<string>, serialize: Json -> string,
                    attributes: map<string, string>) returns (r: map<string, string>)
    ensures r == attributes + ImportedVars(facts, prefixes, serialize)
  {
    var imported: map<string, string> := map[];
    var remaining := facts.Keys;
    while remaining != {}
      invariant remaining <= facts.Keys
      invariant imported == map k | k in facts.Keys - remaining && !SkipVar(k, prefixes) :: ImportedValue(facts[k], serialize)
      decreases remaining
    {
      var hostVar :| hostVar in remaining;
      if !SkipVar(hostVar, prefixes) {
        imported := imported[hostVar := ImportedValue(facts[hostVar], serialize)];
      }
      remaining := remaining - {hostVar};
    }
    assert facts.Keys - remaining == facts.Keys;
    r := attributes + imported;
  }

  /** An ignore list with an empty piece, such as "a,,b", makes the empty
      string a prefix, so nothing at all is imported. */
  lemma EmptyIgnorePieceSkipsEverything(facts: map<string, Json>, ignore: Option<string>, serialize: Json -> string)
    requires exists i :: 0 <= i < |IgnorePrefixes(ignore)| && IgnorePrefixes(ignore)[i] == ""
    ensures ImportedVars(facts, SkipList(ignore), serialize) == map[]
  {
    var i :| 0 <= i < |IgnorePrefixes(ignore)| && IgnorePrefixes(ignore)[i] == "";
    var list := SkipList(ignore);
    assert list[|SpecialVars| + i] == "";
    forall k | k in facts
      ensures SkipVar(k, list)
    {
      assert StartsWith(k, list[|SpecialVars| + i]);
    }
  }

  /** Who the node is: its name, address, login and tags. */
  datatype NodeIdentity = NodeIdentity(nodename: string, hostname: string, username: Option<string>, tags: set<string>)

  /** The name, address, login and tags, read in that order. */
  function IdentityOf(root: Json, s: SourceConfig): Result<NodeIdentity>
    requires root.JObject?
  {
    var inventoryHostname :- MemberString(root, "inventory_hostname");
    var username :- UsernameOf(root, s.sshUser);
    var names :- GroupNamesFact(root);
    Success(NodeIdentity(inventoryHostname, HostnameOf(root, inventoryHostname), username,
                         TagsOf(names, s.ignoreTagPrefix, s.extraTag)))
  }

  /** The description and the four os fields, read in that order. */
  function NodeDetails(root: Json): (r: Result<(Option<string>, Option<string>, Option<string>, Option<string>, Option<string>)>)
    requires root.JObject?
    ensures r.Success? <==>
              DescriptionOf(root).Success? &&
              OptionalFact(root, "ansible_os_family", false).Success? &&
              OptionalFact(root, "ansible_os_name", true).Success? &&
              OptionalFact(root, "ansible_architecture", true).Success? &&
              OptionalFact(root, "ansible_kernel", false).Success?
    ensures r.Success? ==> r.value.0 == DescriptionOf(root).value
    ensures r.Success? ==>
              (r.value.1.Some? <==> root.Has("ansible_os_family")) &&
              (r.value.1.Some? ==> Some(r.value.1.value) == AsString(root.members["ansible_os_family"]))
    ensures r.Success? ==>
              (r.value.2.Some? <==> root.Has("ansible_os_name") && !root.members["ansible_os_name"].JNull?) &&
              (r.value.2.Some? ==> Some(r.value.2.value) == AsString(root.members["ansible_os_name"]))
    ensures r.Success? ==>
              (r.value.3.Some? <==> root.Has("ansible_architecture") && !root.members["ansible_architecture"].JNull?) &&
              (r.value.3.Some? ==> Some(r.value.3.value) == AsString(root.members["ansible_architecture"]))
    ensures r.Success? ==>
              (r.value.4.Some? <==> root.Has("ansible_kernel")) &&
              (r.value.4.Some? ==> Some(r.value.4.value) == AsString(root.members["ansible_kernel"]))
  {
    var description :- DescriptionOf(root);
    var osFamily :- OptionalFact(root, "ansible_os_family", false);
    var osName :- OptionalFact(root, "ansible_os_name", true);
    var osArch :- OptionalFact(root, "ansible_architecture", true);
    var osVersion :- OptionalFact(root, "ansible_kernel", false);
    Success((description, osFamily, osName, osArch, osVersion))
  }

  /** The attributes: the interesting items, then (when importing) the
      imported variables, which win over an item of the same name. */
  function NodeAttributes(root: Json, s: SourceConfig, serialize: Json -> string): map<string, string>
    requires root.JObject?
  {
    AttributesFrom(root, InterestingItems, s, serialize)
  }

  /** The attributes for a table of items. */
  function AttributesFrom(root: Json, items: seq<(string, string)>, s: SourceConfig, serialize: Json -> string): map<string, string>
    requires root.JObject?
  {
    ItemAttributes(root, items) +
    (if s.importInventoryVars then ImportedVars(root.members, SkipList(s.ignoreInventoryVars), serialize) else map[])
  }

  /** The per-file body of getNodes: one fact document to one node record, or
      the failure of the first Gson accessor that throws, which aborts the
      whole listing. A document that is not an object fails as a whole. */
  function NodeFromFacts(root: Json, s: SourceConfig, serialize: Json -> string): (r: Result<NodeRecord>)
    ensures r.Success? <==> root.JObject? && IdentityOf(root, s).Success? && NodeDetails(root).Success?
    ensures r.Success? ==>
              var id := IdentityOf(root, s).value;
              r.value.nodename == id.nodename && r.value.hostname == id.hostname &&
              r.value.username == id.username && r.value.tags == id.tags &&
              r.value.attributes == NodeAttributes(root, s, serialize)
    ensures r.Success? ==>
              var d := NodeDetails(root).value;
              r.value.description == d.0 && r.value.osFamily == d.1 && r.value.osName == d.2 &&
              r.value.osArch == d.3 && r.value.osVersion == d.4
  {
    if !root.JObject? then Failure(MalformedFact(""))
    else
      var id :- IdentityOf(root, s);
      var details :- NodeDetails(root);
      Success(NodeRecord(id.nodename, id.hostname, id.username, id.tags,
                         details.0, details.1, details.2, details.3, details.4,
                         NodeAttributes(root, s, serialize)))
  }

  /** The node's name and address: the name is always inventory_hostname; the
      address is ansible_host, else ansible_ssh_host, else the name. A present
      address without a string form leaves the name as the address. */
  lemma NodeNameAndHostname(root: Json, s: SourceConfig)
    requires root.JObject? && IdentityOf(root, s).Success?
    ensures var id := IdentityOf(root, s).value;
            "inventory_hostname" in root.members &&
            Some(id.nodename) == AsString(root.members["inventory_hostname"]) &&
            (root.Has("ansible_host") && AsString(root.members["ansible_host"]).Some? ==>
               id.hostname == AsString(root.members["ansible_host"]).value) &&
            (root.Has("ansible_host") && AsString(root.members["ansible_host"]).None? ==>
               id.hostname == id.nodename) &&
            (!root.Has("ansible_host") && root.Has("ansible_ssh_host") && AsString(root.members["ansible_ssh_host"]).Some? ==>
               id.hostname == AsString(root.members["ansible_ssh_host"]).value) &&
            (!root.Has("ansible_host") && !root.Has("ansible_ssh_host") ==> id.hostname == id.nodename)
  {
  }

  /** The username is the first of ansible_user, ansible_ssh_user and
      ansible_user_id that is present, else the configured ssh user. */
  lemma NodeUsernamePriority(root: Json, s: SourceConfig)
    requires root.JObject? && IdentityOf(root, s).Success?
    ensures var u := IdentityOf(root, s).value.username;
            (root.Has("ansible_user") ==> u == AsString(root.members["ansible_user"])) &&
            (!root.Has("ansible_user") && root.Has("ansible_ssh_user") ==>
               u == AsString(root.members["ansible_ssh_user"])) &&
            (!root.Has("ansible_user") && !root.Has("ansible_ssh_user") && root.Has("ansible_user_id") ==>
               u == AsString(root.members["ansible_user_id"])) &&
            (!root.Has("ansible_user") && !root.Has("ansible_ssh_user") && !root.Has("ansible_user_id") ==>
               u == s.sshUser)
  {
  }

  /** The tags are the group names that the ignore prefix does not drop, plus
      the extra tag when one is set. */
  lemma NodeTags(root: Json, s: SourceConfig)
    requires root.JObject? && IdentityOf(root, s).Success?
    ensures "group_names" in root.members && root.members["group_names"].JArray?
    ensures var elems := root.members["group_names"].elems;
            forall t :: t in IdentityOf(root, s).value.tags <==>
              (s.extraTag == Some(t) && t != "") ||
              ((exists i :: 0 <= i < |elems| && AsString(elems[i]) == Some(t)) && !IgnoredTag(t, s.ignoreTagPrefix))
  {
    var names := GroupNamesFact(root).value;
    var elems := root.members["group_names"].elems;
    forall t
      ensures t in names <==> exists i :: 0 <= i < |elems| && AsString(elems[i]) == Some(t)
    {
      if t in names {
        var i :| 0 <= i < |names| && names[i] == t;
        assert AsString(elems[i]) == Some(t);
      }
    }
  }

  /** The loop-based form of the name, address, login and tags. */
  method ReadIdentity(root: Json, s: SourceConfig) returns (r: Result<NodeIdentity>)
    requires root.JObject?
    ensures r == IdentityOf(root, s)
  {
    var inventoryHostname := MemberString(root, "inventory_hostname");
    if inventoryHostname.Failure? {
      return Failure(inventoryHostname.error);
    }
    var username := UsernameOf(root, s.sshUser);
    if username.Failure? {
      return Failure(username.error);
    }
    if !("group_names" in root.members && root.members["group_names"].JArray?) {
      return Failure(MalformedFact("group_names"));
    }
    var tags := CollectTags(root.members["group_names"].elems, s.ignoreTagPrefix, s.extraTag);
    if tags.Failure? {
      return Failure(MalformedFact("group_names"));
    }
    r := Success(NodeIdentity(inventoryHostname.value, HostnameOf(root, inventoryHostname.value),
                              username.value, tags.value));
  }

  /** The loop-based form of the attributes. */
  method ReadAttributes(root: Json, s: SourceConfig, serialize: Json -> string) returns (attributes: map<string, string>)
    requires root.JObject?
    ensures attributes == NodeAttributes(root, s, serialize)
  {
    attributes := ReadAttributesFrom(root, InterestingItems, s, serialize);
  }

  method ReadAttributesFrom(root: Json, items: seq<(string, string)>, s: SourceConfig, serialize: Json -> string)
    returns (attributes: map<string, string>)
    requires root.JObject?
    ensures attributes == AttributesFrom(root, items, s, serialize)
  {
    attributes := SetItems(root, items, map[]);
    assert attributes == ItemAttributes(root, items);
    if s.importInventoryVars {
      var prefixes := BuildSkipList(s.ignoreInventoryVars);
      attributes := ImportVars(root.members, prefixes, serialize, attributes);
    }
  }

  /** The per-file body as the source runs it. */
  method NodeFromFactFile(root: Json, s: SourceConfig, serialize: Json -> string) returns (r: Result<NodeRecord>)
    ensures r == NodeFromFacts(root, s, serialize)
  {
    if !root.JObject? {
      return Failure(MalformedFact(""));
    }
    var id := ReadIdentity(root, s);
    if id.Failure? {
      return Failure(id.error);
    }
    var details := NodeDetails(root);
    if details.Failure? {
      return Failure(details.error);
    }
    var attributes := ReadAttributes(root, s, serialize);
    var (description, osFamily, osName, osArch, osVersion) := details.value;
    r := Success(NodeRecord(id.value.nodename, id.value.hostname, id.value.username, id.value.tags,
                            description, osFamily, osName, osArch, osVersion, attributes));
  }

  /** The node set from the per-document results in order: a later node of
      the same name replaces an earlier one, and the first failure aborts. */
  function Collect(results: seq<Result<NodeRecord>>): (r: Result<map<string, NodeRecord>>)
    ensures r.Success? ==> forall i :: 0 <= i < |results| ==> results[i].Success?
    ensures r.Success? ==> forall name :: name in r.value ==> r.value[name].nodename == name
    ensures r.Success? && results != [] ==>
              var last := results[|results| - 1].value;
              last.nodename in r.value && r.value[last.nodename] == last
    decreases |results|
  {
    if results == [] then Success(map[])
    else
      var nodes :- Collect(results[..|results| - 1]);
      var node :- results[|results| - 1];
      Success(nodes[node.nodename := node])
  }

  /** The per-document results of a listing. */
  function FactResults(docs: seq<Json>, s: SourceConfig, serialize: Json -> string): (rs: seq<Result<NodeRecord>>)
    ensures |rs| == |docs| && forall i :: 0 <= i < |docs| ==> rs[i] == NodeFromFacts(docs[i], s, serialize)
  {
    seq(|docs|, i requires 0 <= i < |docs| => NodeFromFacts(docs[i], s, serialize))
  }

  /** Once a prefix of the results fails, the whole listing fails the same way. */
  lemma {:induction false} CollectPrefixFailure(results: seq<Result<NodeRecord>>, k: nat)
    requires k <= |results| && Collect(results[..k]).Failure?
    ensures Collect(results) == Collect(results[..k])
    decreases |results| - k
  {
    if k < |results| {
      var init := results[..|results| - 1];
      assert init[..k] == results[..k];
      CollectPrefixFailure(init, k);
    } else {
      assert results[..k] == results;
    }
  }

  /** One malformed document loses every node, not only its own; otherwise
      every document's node name is in the set. */
  lemma {:induction false} CollectAbortsOnAnyFailure(results: seq<Result<NodeRecord>>)
    ensures Collect(results).Failure? <==> exists i :: 0 <= i < |results| && results[i].Failure?
    ensures Collect(results).Success? ==>
            Collect(results).value.Keys == set i | 0 <= i < |results| :: results[i].value.nodename
    decreases |results|
  {
    if results != [] {
      var init := results[..|results| - 1];
      CollectAbortsOnAnyFailure(init);
      assert forall i :: 0 <= i < |init| ==> init[i] == results[i];
      if Collect(results).Success? {
        assert (set i | 0 <= i < |results| :: results[i].value.nodename)
            == (set i | 0 <= i < |init| :: init[i].value.nodename) + {results[|results| - 1].value.nodename};
      }
    }
  }

  /** One more result either extends the listing or ends it with its failure. */
  lemma CollectStep(results: seq<Result<NodeRecord>>, i: nat, nodes: map<string, NodeRecord>)
    requires i < |results| && Collect(results[..i]) == Success(nodes)
    ensures results[i].Success? ==>
              Collect(results[..i + 1]) == Success(nodes[results[i].value.nodename := results[i].value])
    ensures results[i].Failure? ==> Collect(results) == Failure(results[i].error)
  {
    assert results[..i + 1][..i] == results[..i];
    if results[i].Failure? {
      CollectPrefixFailure(results, i + 1);
    }
  }

  /** The loop over the fact files. */
  method GetNodes(docs: seq<Json>, s: SourceConfig, serialize: Json -> string)
    returns (r: Result<map<string, NodeRecord>>)
    ensures r == Collect(FactResults(docs, s, serialize))
  {
    ghost var results := FactResults(docs, s, serialize);
    var nodes: map<string, NodeRecord> := map[];
    var i := 0;
    while i < |docs|
      invariant 0 <= i <= |docs|
      invariant Collect(results[..i]) == Success(nodes)
    {
      var node := NodeFromFactFile(docs[i], s, serialize);
      CollectStep(results, i, nodes);
      if node.Failure? {
        return Failure(node.error);
      }
      nodes := nodes[node.value.nodename := node.value];
      i := i + 1;
    }
    assert results[..i] == results;
    r := Success(nodes);
  }

  /** The resource model source's configured state: the fields configure
      assigns, held as one record. */
  class AnsibleResourceModelSource {
    var config: SourceConfig

    constructor ()
      ensures config == Unconfigured
    {
      config := Unconfigured;
    }

    /** configure: assigns the fields in order; an unparseable timeout stops
        it after the fields before the timeout. */
    method Configure(conf: map<string, string>, expand: string -> string) returns (r: Result<()>)
      modifies this
      ensures r.Success? <==> TimeoutSetting(conf, expand).Success?
      ensures r.Success? ==> config == Configured(conf, expand)
      ensures r.Failure? ==> r.error == ConfigurationError(TimeoutMessage) &&
                             config == AfterFailedConfigure(old(config), conf, expand)
    {
      var c := config;
      c := c.(inventory := ResolveConfig(conf, expand, K.Inventory, None));
      c := c.(gatherFacts := ConfigFlag(conf, expand, K.GatherFacts));
      c := c.(ignoreErrors := ConfigFlag(conf, expand, K.IgnoreErrors));
      c := c.(limit := ResolveConfig(conf, expand, K.Limit, None));
      c := c.(ignoreTagPrefix := ResolveConfig(conf, expand, K.IgnoreTags, None));
      c := c.(importInventoryVars := ConfigFlag(conf, expand, K.ImportInventoryVars));
      c := c.(ignoreInventoryVars := ResolveConfig(conf, expand, K.IgnoreInventoryVars, None));
      c := c.(extraTag := ResolveConfig(conf, expand, K.ExtraTag, None));
      c := c.(sshAuthType := ResolveConfig(conf, expand, K.SshAuthType, Some(K.AuthenticationTypeName(K.PrivateKey))));
      c := c.(sshUser := ResolveConfig(conf, expand, K.SshUser, None));
      c := c.(sshPrivateKeyFile := ResolveConfig(conf, expand, K.SshKeyPath, None));
      c := c.(sshPassword := ResolveConfig(conf, expand, K.SshPassword, None));
      c := c.(sshTimeout := None);
      var timeoutText := ResolveConfig(conf, expand, K.SshTimeout, None);
      if timeoutText.Some? {
        var parsed := ParseInt(timeoutText.value);
        if parsed.None? {
          config := c;
          return Failure(ConfigurationError(TimeoutMessage));
        }
        c := c.(sshTimeout := parsed);
      }
      c := c.(become := Some(ConfigFlag(conf, expand, K.Become)));
      c := c.(becomeMethod := ResolveConfig(conf, expand, K.BecomeMethod, None));
      c := c.(becomeUser := ResolveConfig(conf, expand, K.BecomeUser, None));
      c := c.(becomePassword := ResolveConfig(conf, expand, K.BecomePassword, None));
      c := c.(configFile := ResolveConfig(conf, expand, K.ConfigFilePath, None));
      c := c.(vaultFile := ResolveConfig(conf, expand, K.VaultPath, None));
      c := c.(vaultPassword := ResolveConfig(conf, expand, K.VaultPassword, None));
      c := c.(baseDirectoryPath := ResolveConfig(conf, expand, K.BaseDirPath, None));
      c := c.(binariesDirectoryPath := ResolveConfig(conf, expand, K.BinariesDirPath, None));
      c := c.(extraParameters := ResolveConfig(conf, expand, K.ExtraParam, None));
      config := c;
      r := Success(());
    }
  }
}
