# Ansible plugin for Rundeck: a verified model of its core

This project models the part of the Rundeck Ansible plugin that turns layered
plugin settings into one fully resolved Ansible invocation, writes the host
inventory handed to Ansible, and maps Ansible's per-host fact documents back into
Rundeck node records. Five parts make up the core:

- **Execution-parameter resolution** (`AnsibleRunnerBuilder`, in `runner_builder.dfy`):
  - every setting of a run is resolved from the job configuration, the node, the
    project and the framework;
  - secrets come from secure options, the key storage tree or local files;
  - the run target is playbook path, then inline playbook, then module;
  - the inventory source is chosen in priority order, and the temporary files it
    creates are tracked until cleanup;
  - the runner is built setting by setting, and the first failing getter stops the
    build.
- **Inventory** (`AnsibleInventory`, in `inventory.dfy`):
  - the reserved variable names are removed and `ansible_host` is set;
  - host variables follow a parse-then-reject-primitive rule;
  - child groups come from the `osFamily` and `tags` attributes.
- **Fact ingestion** (`AnsibleResourceModelSource`, in `resource_model_source.dfy`):
  - `configure` assigns the source's fields;
  - `buildAnsibleRunner` chooses the fact-gathering run options;
  - the per-document mapping from a JSON fact object to a node covers name, address,
    login, tags, description, OS fields, the "interesting items" table with dotted
    paths and array indices, and the imported inventory variables;
  - the loop over all documents assembles the node set.
- **Ad-hoc command execution** (`AnsibleNodeExecutor`, in `node_executor.dfy`):
  - Windows detection and the shell module choice;
  - the quoted argument text;
  - the job configuration fed to the builder;
  - the outcome of a run, and cleanup only after success;
  - the job configurations of the secret-bundle hooks.
- **Secret bundle assembly** (`AnsibleUtil.createBundle`, in `secret_bundle.dfy`):
  four conditional additions to one mutable bundle.

Supporting modules:

- `base.dfy`: Option, Result, bytes, and the Java string operations the plugin
  uses (`contains`, `startsWith`, `toLowerCase`, `trim`, `split`,
  `Boolean.parseBoolean`, `Integer.parseInt`).
- `json.dfy`: JSON values as section 3 of RFC 8259 lists them, with the Gson
  accessors the plugin calls.
- `describable.dfy`: the property keys, defaults and enumerations of
  `AnsibleDescribable`.
- `resolver.dfy`: `PropertyResolver`.
- `runner.dfy`: the invocation descriptor handed to `AnsibleRunner`.

Collaborators whose source is not part of this model are abstract parameters or
fields:

- `DataContextUtils.replaceDataReferences` is `expand`;
- `new String(bytes)` is `decode`;
- Gson's lenient parse is `parse`, and `toJson` is `serialize`;
- the storage tree and the local file system are maps from path to bytes;
- the temporary inventory files are fresh ids in a `TempFileStore`.

`PropertyResolver` is not part of this model. Its layer order is an assumption,
stated once in `resolver.dfy`: job configuration, then the node's attributes (only
when exactly one node is in scope), then `project.<key>`, then `framework.<key>`,
then the default.

Where the code's behaviour differs from the plugin's description, the model follows
the code:

- A fact document that does not match what the per-file body expects makes Gson
  throw. That exception is not caught, so it aborts the whole node listing instead
  of skipping one host (`ResourceModelSource.CollectAbortsOnAnyFailure`).
- `executeCommand` cleans up temporary files only on the success path. Both failure
  returns leave the generated inventory file in place (`NodeExecutor.ExecuteCommand`).
- The builder's boolean settings use `Boolean.parseBoolean`, which ignores letter
  case. The resource model source compares with exactly `"true"`.

## Model

| member | source | states |
|---|---|---|
| Base.ParseInt | src/main/groovy/com/rundeck/plugins/ansible/ansible/AnsibleRunnerBuilder.java:268 | Integer.parseInt: a text parses exactly when it is one or more decimal digits, optionally after a "+" or "-", whose signed value lies in the 32-bit range, and the result is that signed value; anything else is a NumberFormatException |
| Base.ParseIntDecimal | src/main/groovy/com/rundeck/plugins/ansible/ansible/AnsibleRunnerBuilder.java:268 | every non-negative 32-bit number is read back from its decimal spelling |
| Base.ParseIntSigned | src/main/groovy/com/rundeck/plugins/ansible/ansible/AnsibleRunnerBuilder.java:268 | every 32-bit number written with an explicit sign is read back: "-" down to -2147483648, "+" up to 2147483647 |
| Base.JavaSplit | src/main/groovy/com/rundeck/plugins/ansible/ansible/AnsibleInventory.java:99 | String.split on one character: no piece contains the delimiter; without a delimiter the string is its only piece; otherwise the result is all pieces with exactly the trailing empty ones dropped (a prefix of the pieces, not ending in an empty one, everything after it empty) |
| Base.Trim | src/main/groovy/com/rundeck/plugins/ansible/ansible/AnsibleInventory.java:101 | String.trim: never longer, and a non-empty result starts and ends above U+0020 |
| Base.TrimIsSlice | src/main/groovy/com/rundeck/plugins/ansible/ansible/AnsibleInventory.java:101 | what trim keeps is one contiguous slice of the text, and every character before and after it is at or below U+0020: exactly the blank ends are dropped |
| Base.TrimOfWordAndBlank | src/main/groovy/com/rundeck/plugins/ansible/plugin/AnsibleResourceModelSource.java:358 | a word without outer blanks, followed by the one blank the description builder appends, trims back to the word |
| Base.ToLower | src/main/groovy/com/rundeck/plugins/ansible/plugin/AnsibleNodeExecutor.java:117 | toLowerCase keeps the length and lower-cases each character in its place |
| Base.ToLowerConcat | src/main/groovy/com/rundeck/plugins/ansible/plugin/AnsibleNodeExecutor.java:117 | lower-casing distributes over concatenation, so a marker found in any letter case is found lower-cased |
| Json.AsString | src/main/groovy/com/rundeck/plugins/ansible/plugin/AnsibleResourceModelSource.java:308-331 | getAsString: every primitive has a text, a string its own; null, objects and arrays not of one element throw |
| Describable.AuthenticationTypeValueOf | src/main/groovy/com/rundeck/plugins/ansible/ansible/AnsibleRunnerBuilder.java:306 | AuthenticationType.valueOf: the constant whose name is exactly the text, or failure exactly when no constant has that name |
| Describable.BecomeMethodValueOf | src/main/groovy/com/rundeck/plugins/ansible/ansible/AnsibleRunnerBuilder.java:372 | BecomeMethodType.valueOf: the constant whose name is exactly the text, or failure exactly when none has it |
| Resolver.FirstPresent | src/main/groovy/com/rundeck/plugins/ansible/ansible/AnsibleRunnerBuilder.java:277-292 | the first present layer wins over every later one; the default is used only when no layer is present |
| Resolver.ResolvePropertyIsFirstLayer | src/main/groovy/com/rundeck/plugins/ansible/ansible/AnsibleRunnerBuilder.java:277-292 | resolveProperty answers with the first of job configuration, node, project and framework that holds the key, else the default (assumed layer order) |
| Resolver.JobLevelWins | src/main/groovy/com/rundeck/plugins/ansible/ansible/AnsibleRunnerBuilder.java:277-292 | a job-level value is the answer whatever the node, project and framework hold |
| Resolver.ResolveBooleanProperty | src/main/groovy/com/rundeck/plugins/ansible/ansible/AnsibleRunnerBuilder.java:813-816 | resolveBooleanProperty: the default when nothing is configured, true for exactly "true", false for any other configured text |
| Resolver.EvaluateSecureOption | src/main/groovy/com/rundeck/plugins/ansible/ansible/AnsibleRunnerBuilder.java:211 | evaluateSecureOption: a value exactly when the named secure option exists and is non-empty, and then its value |
| RunnerBuilder.TheNode | src/main/groovy/com/rundeck/plugins/ansible/ansible/AnsibleRunnerBuilder.java:1023-1025 | getNode: the sole node when exactly one is in scope, otherwise none |
| RunnerBuilder.SshAuthenticationType | src/main/groovy/com/rundeck/plugins/ansible/ansible/AnsibleRunnerBuilder.java:295-309 | privateKey when the auth type is unset; otherwise the constant named by the unexpanded text; an invalid-name failure exactly when no constant has that name |
| RunnerBuilder.BecomeMethod | src/main/groovy/com/rundeck/plugins/ansible/ansible/AnsibleRunnerBuilder.java:361-375 | absent when unset; otherwise the constant named by the unexpanded text; an invalid-name failure exactly when no constant has that name |
| RunnerBuilder.SshTimeout | src/main/groovy/com/rundeck/plugins/ansible/ansible/AnsibleRunnerBuilder.java:256-275 | absent when unset; otherwise the parsed unexpanded text; a configuration error exactly when the text is no 32-bit integer |
| RunnerBuilder.Limit | src/main/groovy/com/rundeck/plugins/ansible/ansible/AnsibleRunnerBuilder.java:809-838 | getLimit: none whenever the disable-limit flag is true, whatever limit is configured; otherwise a limit exactly when one is resolved, expanded when it holds a `${...}` reference and taken as it is otherwise |
| RunnerBuilder.SshUser | src/main/groovy/com/rundeck/plugins/ansible/ansible/AnsibleRunnerBuilder.java:277-292 | getSshUser: set exactly when the resolved value is; the expansion when that value holds a `${...}` reference, the value as it is otherwise |
| RunnerBuilder.BecomeUser | src/main/groovy/com/rundeck/plugins/ansible/ansible/AnsibleRunnerBuilder.java:311-325 | getBecomeUser: set exactly when the resolved value is; the expansion when that value holds a `${...}` reference, the value as it is otherwise |
| RunnerBuilder.Become | src/main/groovy/com/rundeck/plugins/ansible/ansible/AnsibleRunnerBuilder.java:327-342 | getBecome: unset exactly when nothing is resolved; otherwise true exactly for "true" in any letter case (Boolean.parseBoolean) |
| RunnerBuilder.ExtraParams | src/main/groovy/com/rundeck/plugins/ansible/ansible/AnsibleRunnerBuilder.java:344-359 | getExtraParams: set exactly when the resolved value is; the expansion when that value holds a `${...}` reference, the value as it is otherwise |
| RunnerBuilder.PlaybookPath | src/main/groovy/com/rundeck/plugins/ansible/ansible/AnsibleRunnerBuilder.java:536-546 | getPlaybookPath: read from the job configuration only; set exactly when the entry is; expanded only when it holds a `${...}` reference |
| RunnerBuilder.PlaybookInline | src/main/groovy/com/rundeck/plugins/ansible/ansible/AnsibleRunnerBuilder.java:548-558 | getPlaybookInline: read from the job configuration only; set exactly when the entry is; expanded only when it holds a `${...}` reference |
| RunnerBuilder.Executable | src/main/groovy/com/rundeck/plugins/ansible/ansible/AnsibleRunnerBuilder.java:584-599 | getExecutable: set exactly when the resolved value is; the expansion when that value holds a `${...}` reference, the value as it is otherwise |
| RunnerBuilder.Debug | src/main/groovy/com/rundeck/plugins/ansible/ansible/AnsibleRunnerBuilder.java:601-616 | getDebug: true exactly when a value is resolved and it is "true" in any letter case; false when unset |
| RunnerBuilder.ConfigFile | src/main/groovy/com/rundeck/plugins/ansible/ansible/AnsibleRunnerBuilder.java:840-856 | getConfigFile: set exactly when the resolved value is; the expansion when that value holds a `${...}` reference, the value as it is otherwise |
| RunnerBuilder.BaseDir | src/main/groovy/com/rundeck/plugins/ansible/ansible/AnsibleRunnerBuilder.java:858-868 | getBaseDir: read from the job configuration only; set exactly when the entry is; expanded only when it holds a `${...}` reference |
| RunnerBuilder.BinariesFilePath | src/main/groovy/com/rundeck/plugins/ansible/ansible/AnsibleRunnerBuilder.java:870-880 | getBinariesFilePath: read from the job configuration only; set exactly when the entry is; expanded only when it holds a `${...}` reference |
| RunnerBuilder.PassphraseStoragePath | src/main/groovy/com/rundeck/plugins/ansible/ansible/AnsibleRunnerBuilder.java:1087-1122 | getPassphraseStoragePath: absent when no path is configured; otherwise the decoded content stored at the path, not the path; an unreadable path is a configuration error |
| RunnerBuilder.LoadStoragePathData | src/main/groovy/com/rundeck/plugins/ansible/ansible/AnsibleRunnerBuilder.java:71-79 | loadStoragePathData: absent for an absent path, the stored bytes for a stored path, a storage failure naming the path otherwise |
| RunnerBuilder.ResolveSecret | src/main/groovy/com/rundeck/plugins/ansible/ansible/AnsibleRunnerBuilder.java:150-254 | the shared lookup: a non-empty secure option is the answer; else the configured storage path is read and decoded, or a ConfigurationException naming the path when nothing is stored there; else the slot's local file is read and decoded, or a ConfigurationException naming the file; with none of them the secret is absent |
| RunnerBuilder.SshPrivateKey | src/main/groovy/com/rundeck/plugins/ansible/ansible/AnsibleRunnerBuilder.java:150-197 | getSshPrivateKey: the storage path, then the key file path, each read and decoded, with the failure naming the path; absent with neither (no secure option) |
| RunnerBuilder.SshPassword | src/main/groovy/com/rundeck/plugins/ansible/ansible/AnsibleRunnerBuilder.java:199-254 | getSshPassword: a non-empty secure option is the answer; else the configured storage path is read and decoded, or a ConfigurationException naming the path when nothing is stored there; absent otherwise |
| RunnerBuilder.BecomePassword | src/main/groovy/com/rundeck/plugins/ansible/ansible/AnsibleRunnerBuilder.java:417-472 | getBecomePassword: a non-empty secure option is the answer; else the configured storage path is read and decoded, or a ConfigurationException naming the path when nothing is stored there; absent otherwise |
| RunnerBuilder.VaultKey | src/main/groovy/com/rundeck/plugins/ansible/ansible/AnsibleRunnerBuilder.java:474-534 | getVaultKey: the vault storage path, then the vault file path, each read and decoded, with the failure naming the path; absent with neither |
| RunnerBuilder.Passphrase | src/main/groovy/com/rundeck/plugins/ansible/ansible/AnsibleRunnerBuilder.java:1061-1085 | getPassphrase: a non-empty secure option is the answer; else the configured storage path is read and decoded, or a ConfigurationException naming the path when nothing is stored there; absent otherwise |
| RunnerBuilder.SecureOptionShortCircuits | src/main/groovy/com/rundeck/plugins/ansible/ansible/AnsibleRunnerBuilder.java:199-254 | a non-empty secure option is returned without reading the storage tree or the file system: the answer is the same for any storage and files |
| RunnerBuilder.StorageBeatsFile | src/main/groovy/com/rundeck/plugins/ansible/ansible/AnsibleRunnerBuilder.java:150-197 | with a storage path configured, the secret is the storage read, whatever the file system holds |
| RunnerBuilder.SecretWithoutFileIgnoresFiles | src/main/groovy/com/rundeck/plugins/ansible/ansible/AnsibleRunnerBuilder.java:417-472 | a secret kind without a file key never depends on the file system, and is absent with neither option nor storage path |
| RunnerBuilder.PasswordsNeverReadFiles | src/main/groovy/com/rundeck/plugins/ansible/ansible/AnsibleRunnerBuilder.java:199-254 | the SSH password, the become password and the passphrase are the same for every file system; with neither option nor storage path the passwords are absent |
| RunnerBuilder.KeysFallBackToFile | src/main/groovy/com/rundeck/plugins/ansible/ansible/AnsibleRunnerBuilder.java:474-534 | private key and vault key: absent with neither path set; the local file's content when only the file path is set |
| RunnerBuilder.SecretFailureNamesPath | src/main/groovy/com/rundeck/plugins/ansible/ansible/AnsibleRunnerBuilder.java:150-197 | every failed secret read is a ConfigurationException whose message contains the path that could not be read |
| RunnerBuilder.RunTarget | src/main/groovy/com/rundeck/plugins/ansible/ansible/AnsibleRunnerBuilder.java:536-570 | playbook path beats inline playbook, which beats module with its arguments; with none of them, the error "Missing module or playbook job arguments", and only then |
| RunnerBuilder.TargetReadsJobConfOnly | src/main/groovy/com/rundeck/plugins/ansible/ansible/AnsibleRunnerBuilder.java:536-570 | the target is the same for every project, framework and node setting: only the job configuration supplies it |
| RunnerBuilder.ExtraVarsText | src/main/groovy/com/rundeck/plugins/ansible/ansible/AnsibleRunnerBuilder.java:669-741 | with injection off, the configured extra variables unchanged; with injection on, a failure exactly when the job configuration has no "ansible-extra-vars" entry (the unguarded dereference) |
| RunnerBuilder.InjectedExtraVarsLayout | src/main/groovy/com/rundeck/plugins/ansible/ansible/AnsibleRunnerBuilder.java:680-741 | with injection on, the text is exactly the configured value (or ""), then the option lines, then the test_job_conf line, then the export block, then the data block |
| RunnerBuilder.InjectedExtraVarsReferenceEveryOption | src/main/groovy/com/rundeck/plugins/ansible/ansible/AnsibleRunnerBuilder.java:704-708 | with injection on, every option key has its `key: "${option.key}"` line in the text |
| RunnerBuilder.InjectedExtraVarsReferenceEveryMarkedKey | src/main/groovy/com/rundeck/plugins/ansible/ansible/AnsibleRunnerBuilder.java:720-732 | with injection on, a present export or data namespace puts its test_export/test_data marker line and a `key: "${ns.key}"` line for every one of its keys into the text |
| RunnerBuilder.AppendLines | src/main/groovy/com/rundeck/plugins/ansible/ansible/AnsibleRunnerBuilder.java:704-732 | each loop appends one reference line per key of its namespace, in iteration order |
| RunnerBuilder.InventorySourceOf | src/main/groovy/com/rundeck/plugins/ansible/ansible/AnsibleRunnerBuilder.java:760-807 | generated from the nodes when the flag is true, else the inline text, else the configured path (expanded) |
| RunnerBuilder.InventoryTempFileCount | src/main/groovy/com/rundeck/plugins/ansible/ansible/AnsibleRunnerBuilder.java:760-807 | a generated or inline inventory gets exactly one fresh temporary file, and a configured path gets none |
| RunnerBuilder.TempFileStore.Create | src/main/groovy/com/rundeck/plugins/ansible/ansible/AnsibleRunnerBuilder.java:764-789 | a new temporary file has a fresh id that did not exist before and holds the given content |
| RunnerBuilder.TempFileStore.Delete | src/main/groovy/com/rundeck/plugins/ansible/ansible/AnsibleRunnerBuilder.java:1038 | deleting a file removes only it; contents and ids are unchanged |
| RunnerBuilder.AnsibleRunnerBuilder.GetExtraVars | src/main/groovy/com/rundeck/plugins/ansible/ansible/AnsibleRunnerBuilder.java:669-741 | the three appending loops produce the extra-variables text above, expanded once |
| RunnerBuilder.AnsibleRunnerBuilder.AppendMarkedBlock | src/main/groovy/com/rundeck/plugins/ansible/ansible/AnsibleRunnerBuilder.java:721-732 | the export or data block: its marker line and one line per key, or nothing when the namespace is absent |
| RunnerBuilder.AnsibleRunnerBuilder.GetInventory | src/main/groovy/com/rundeck/plugins/ansible/ansible/AnsibleRunnerBuilder.java:760-807 | getInventory returns the reference for its source; a generated or inline inventory adds one fresh file to the store and to tempFiles; a path adds none |
| RunnerBuilder.AnsibleRunnerBuilder.CleanupTempFiles | src/main/groovy/com/rundeck/plugins/ansible/ansible/AnsibleRunnerBuilder.java:1035-1042 | every tracked file is deleted if and only if debug is off, and the tracked list is always emptied |
| RunnerBuilder.CleanupTwice | src/main/groovy/com/rundeck/plugins/ansible/ansible/AnsibleRunnerBuilder.java:1035-1042 | a second cleanup deletes nothing more: cleanup is idempotent |
| RunnerBuilder.AnsibleRunnerBuilder.BuildAnsibleRunner | src/main/groovy/com/rundeck/plugins/ansible/ansible/AnsibleRunnerBuilder.java:882-1013 | a failing target or credential read fails before any file is created; otherwise the runner is the specified one with the inventory reference, and exactly the inventory's temporary file is added |
| RunnerBuilder.AnsibleRunnerBuilder.WithAuthentication | src/main/groovy/com/rundeck/plugins/ansible/ansible/AnsibleRunnerBuilder.java:889-926 | target, then credentials by authentication type, then the "option" data-context map passed as the runner's options; equal to RunnerWithAuth, whose fields CredentialsFollowAuthType and AuthRunnerOptions state |
| RunnerBuilder.AnsibleRunnerBuilder.WithSettings | src/main/groovy/com/rundeck/plugins/ansible/ansible/AnsibleRunnerBuilder.java:928-1010 | every setting after the inventory, in source order, stopping at the first failing getter; equal to RunnerWithSettings, whose fields SettingsReachRunner and whose failures SettingsFailOnFirstError state |
| RunnerBuilder.AnsibleRunnerBuilder.WithLaunchSettings | src/main/groovy/com/rundeck/plugins/ansible/ansible/AnsibleRunnerBuilder.java:928-950 | the statements compute the stage function: inventory, limit, debug and extra parameters; the fields the runner ends with are stated by LaunchSettingsReachRunner and SettingsReachRunner |
| RunnerBuilder.AnsibleRunnerBuilder.WithVariableSettings | src/main/groovy/com/rundeck/plugins/ansible/ansible/AnsibleRunnerBuilder.java:952-980 | the statements compute the stage function: extra variables, SSH user, vault key, timeout, become flag and become user, failing with the first failing getter; the resulting fields are stated by VariableSettingsReachRunner and SettingsReachRunner and the failures by SettingsFailOnFirstError |
| RunnerBuilder.AnsibleRunnerBuilder.WithVarsAndVault | src/main/groovy/com/rundeck/plugins/ansible/ansible/AnsibleRunnerBuilder.java:952-965 | the statements compute the stage function: extra variables, SSH user and vault key, failing with the first failing getter; see VariableSettingsReachRunner and SettingsReachRunner and SettingsFailOnFirstError |
| RunnerBuilder.AnsibleRunnerBuilder.WithTimeoutAndBecome | src/main/groovy/com/rundeck/plugins/ansible/ansible/AnsibleRunnerBuilder.java:967-980 | the statements compute the stage function: timeout, become flag and become user; a bad timeout fails; see VariableSettingsReachRunner and SettingsReachRunner and SettingsFailOnFirstError |
| RunnerBuilder.AnsibleRunnerBuilder.WithPrivilegeSettings | src/main/groovy/com/rundeck/plugins/ansible/ansible/AnsibleRunnerBuilder.java:982-1010 | the statements compute the stage function: become method and become password, then the paths; an unknown method or an unreadable password fails; see PrivilegeSettingsReachRunner and SettingsReachRunner and SettingsFailOnFirstError |
| RunnerBuilder.AnsibleRunnerBuilder.WithPaths | src/main/groovy/com/rundeck/plugins/ansible/ansible/AnsibleRunnerBuilder.java:992-1010 | the statements compute the stage function: executable, configuration file, base directory and binaries directory; see PrivilegeSettingsReachRunner and SettingsReachRunner |
| RunnerBuilder.CredentialsFollowAuthType | src/main/groovy/com/rundeck/plugins/ansible/ansible/AnsibleRunnerBuilder.java:889-920 | the runner carries the target, and for privateKey the key (and, with the SSH agent, the passphrase) and no password; for password the password and no key |
| RunnerBuilder.AuthRunnerOptions | src/main/groovy/com/rundeck/plugins/ansible/ansible/AnsibleRunnerBuilder.java:922-926 | after the credentials, the runner's options are the "option" data-context map when there is one and unset otherwise, and no later setting has been made |
| RunnerBuilder.CredentialsTouchOnlyCredentials | src/main/groovy/com/rundeck/plugins/ansible/ansible/AnsibleRunnerBuilder.java:899-920 | the credentials step leaves the target, the options and every later setting as they were |
| RunnerBuilder.LaunchSettingsReachRunner | src/main/groovy/com/rundeck/plugins/ansible/ansible/AnsibleRunnerBuilder.java:928-950 | the inventory reference, the limit, the debug flag and the extra parameters are exactly what their getters answer, and nothing else changes |
| RunnerBuilder.VariableSettingsReachRunner | src/main/groovy/com/rundeck/plugins/ansible/ansible/AnsibleRunnerBuilder.java:952-980 | extra variables, SSH user, vault key, timeout, become flag and become user are exactly what their getters answer, and nothing else changes |
| RunnerBuilder.PrivilegeSettingsReachRunner | src/main/groovy/com/rundeck/plugins/ansible/ansible/AnsibleRunnerBuilder.java:982-1010 | the become method's name, become password, executable, configuration file, base and binaries directories are exactly what their getters answer, and nothing else changes |
| RunnerBuilder.SettingsReachRunner | src/main/groovy/com/rundeck/plugins/ansible/ansible/AnsibleRunnerBuilder.java:928-1010 | a successful build gives each later runner field exactly its getter's answer: inventory, limit, debug, extra parameters, extra variables, SSH user, vault key, timeout, become flag, become user, the become method's name, become password, executable, configuration file, base and binaries directories; target, credentials and options are untouched |
| RunnerBuilder.SettingsFailOnFirstError | src/main/groovy/com/rundeck/plugins/ansible/ansible/AnsibleRunnerBuilder.java:928-1010 | the settings fail exactly when the extra variables, vault key, timeout, become method or become password cannot be read, and with the error of the first of these in that order |
| Inventory.HostVarValue | src/main/groovy/com/rundeck/plugins/ansible/ansible/AnsibleInventory.java:36-62 | a value that fails to parse or parses to a primitive is kept as the original string; any other stored value is exactly what parsing produced |
| Inventory.HostVars | src/main/groovy/com/rundeck/plugins/ansible/ansible/AnsibleInventory.java:33-75 | one JSON variable per attribute and no other: a primitive variable is the attribute's original text, any other is what parsing that text produced |
| Inventory.HostVarsShape | src/main/groovy/com/rundeck/plugins/ansible/ansible/AnsibleInventory.java:26-93 | the host's variable names are exactly the caller's names minus hostvars, group_names, groups and environment, plus ansible_host, which holds the given address |
| Inventory.PrimitiveParseKeepsRawText | src/main/groovy/com/rundeck/plugins/ansible/ansible/AnsibleInventory.java:49-57 | text like "a,b,c" that parses to no structure stays the original string |
| Inventory.GroupNamesOf | src/main/groovy/com/rundeck/plugins/ansible/ansible/AnsibleInventory.java:96-104 | one group name per piece of the lower-cased value split on commas, each trimmed |
| Inventory.GroupNames | src/main/groovy/com/rundeck/plugins/ansible/ansible/AnsibleInventory.java:96-104 | the osFamily groups come first and the tags groups last; with neither attribute there are none, with one of them exactly its groups |
| Inventory.GroupNamesAreTrimmed | src/main/groovy/com/rundeck/plugins/ansible/ansible/AnsibleInventory.java:96-104 | group names carry no surrounding blanks, and a value without commas names one group |
| Inventory.GroupsFromCallerAttributes | src/main/groovy/com/rundeck/plugins/ansible/ansible/AnsibleInventory.java:87-104 | removing the reserved names and setting ansible_host never changes the groups |
| Inventory.WithHostName | src/main/groovy/com/rundeck/plugins/ansible/ansible/AnsibleInventory.java:21-24 | addHost(name) on a group enters the host with no variables and keeps every other host |
| Inventory.InventoryHosts.AddHostName | src/main/groovy/com/rundeck/plugins/ansible/ansible/AnsibleInventory.java:21-24 | re-adding a host by name resets its variables to empty |
| Inventory.InventoryHosts.AddHost | src/main/groovy/com/rundeck/plugins/ansible/ansible/AnsibleInventory.java:26-77 | sets ansible_host in the caller's map, then replaces the host's variables with the parsed attributes |
| Inventory.InventoryHosts.GetOrAddChildHostGroup | src/main/groovy/com/rundeck/plugins/ansible/ansible/AnsibleInventory.java:79-82 | an existing child is returned untouched; a missing one is created empty |
| Inventory.InventoryHosts.AddToChild | src/main/groovy/com/rundeck/plugins/ansible/ansible/AnsibleInventory.java:101 | the named child group gains the host, and nothing else changes |
| Inventory.JoinGroupsSpec | src/main/groovy/com/rundeck/plugins/ansible/ansible/AnsibleInventory.java:96-104 | joining adds exactly the named groups, puts the node in each with no variables, and keeps every other member of every group |
| Inventory.JoinGroups | src/main/groovy/com/rundeck/plugins/ansible/ansible/AnsibleInventory.java:96-104 | joining keeps every existing group and creates every named one |
| Inventory.AnsibleInventory.AddHost | src/main/groovy/com/rundeck/plugins/ansible/ansible/AnsibleInventory.java:87-106 | the caller's map loses the reserved names and gains ansible_host; "all" gets the host's variables; the node joins the osFamily and tags groups |
| Inventory.AnsibleInventory.AddToGroups | src/main/groovy/com/rundeck/plugins/ansible/ansible/AnsibleInventory.java:96-104 | the grouping loop joins the node to each named group without touching "all"'s hosts |
| ResourceModelSource.ConfiguredFlagsAreExactTrue | src/main/groovy/com/rundeck/plugins/ansible/plugin/AnsibleResourceModelSource.java:102-159 | gatherFacts, ignoreErrors, importInventoryVars and become are true only for exactly "true" after expansion; the auth type defaults to privateKey |
| ResourceModelSource.ConfigureFailsOnlyOnTimeout | src/main/groovy/com/rundeck/plugins/ansible/plugin/AnsibleResourceModelSource.java:132-140 | configure fails exactly when a configured timeout's expansion is no 32-bit integer |
| ResourceModelSource.TimeoutSetting | src/main/groovy/com/rundeck/plugins/ansible/plugin/AnsibleResourceModelSource.java:132-140 | absent when unset; a configuration error with the timeout message exactly when the expanded text is no 32-bit integer; otherwise that integer |
| ResourceModelSource.AnsibleResourceModelSource.Configure | src/main/groovy/com/rundeck/plugins/ansible/plugin/AnsibleResourceModelSource.java:102-159 | a successful configure leaves every field as resolved; a failing one keeps the fields assigned before the timeout and leaves the rest |
| ResourceModelSource.AuthKindOf | src/main/groovy/com/rundeck/plugins/ansible/plugin/AnsibleResourceModelSource.java:175-189 | privateKey exactly when the text equals "privateKey" ignoring case; password exactly when it is not that and equals "password" ignoring case |
| ResourceModelSource.AuthTypeIgnoresLetterCase | src/main/groovy/com/rundeck/plugins/ansible/plugin/AnsibleResourceModelSource.java:175-189 | two spellings that differ only in case select the same credentials branch |
| ResourceModelSource.GatherRunner | src/main/groovy/com/rundeck/plugins/ansible/plugin/AnsibleResourceModelSource.java:161-253 | the build fails exactly when a configured key file or vault file cannot be read, with the error of the first one |
| ResourceModelSource.GatherRunnerTargetAndLimit | src/main/groovy/com/rundeck/plugins/ansible/plugin/AnsibleResourceModelSource.java:161-173 | the runner runs the fact-gathering playbook with the system debug flag, and gets a limit only when it is set and non-empty |
| ResourceModelSource.GatherRunnerCredentials | src/main/groovy/com/rundeck/plugins/ansible/plugin/AnsibleResourceModelSource.java:175-189 | a password only for the password type with a password set; for privateKey, a key file's content is the key |
| ResourceModelSource.RunnerAuth | src/main/groovy/com/rundeck/plugins/ansible/plugin/AnsibleResourceModelSource.java:175-189 | fails exactly when the private-key type names an unreadable key file; the key type with a file sets the file's content as the key; the password type with a password sets it and turns password use on; otherwise the runner is unchanged |
| ResourceModelSource.GatherRunnerVaultAndInventory | src/main/groovy/com/rundeck/plugins/ansible/plugin/AnsibleResourceModelSource.java:227-239 | the vault file's content overrides the vault password when both are set; the configured inventory is passed as it is |
| ResourceModelSource.RunnerVault | src/main/groovy/com/rundeck/plugins/ansible/plugin/AnsibleResourceModelSource.java:227-239 | fails exactly when a vault file is set and unreadable, naming it; otherwise only the vault password changes: the file's content when a file is set, else the configured password, else as it was |
| ResourceModelSource.MemberString | src/main/groovy/com/rundeck/plugins/ansible/plugin/AnsibleResourceModelSource.java:308-320 | root.get(name).getAsString() succeeds exactly when the member exists and has a string form, and then yields it |
| ResourceModelSource.Strings | src/main/groovy/com/rundeck/plugins/ansible/plugin/AnsibleResourceModelSource.java:334-343 | every element's string form, in order, or nothing when one element has none |
| ResourceModelSource.TagsOf | src/main/groovy/com/rundeck/plugins/ansible/plugin/AnsibleResourceModelSource.java:334-343 | a tag is a group name not starting with a non-empty ignore prefix, or the extra tag |
| ResourceModelSource.CollectTags | src/main/groovy/com/rundeck/plugins/ansible/plugin/AnsibleResourceModelSource.java:334-343 | the tag loop gives those tags, or fails when a group name has no string form |
| ResourceModelSource.WalkPath | src/main/groovy/com/rundeck/plugins/ansible/plugin/AnsibleResourceModelSource.java:435-445 | the loop that reassigns the current element ends where the recursive path walk does |
| ResourceModelSource.Walk | src/main/groovy/com/rundeck/plugins/ansible/plugin/AnsibleResourceModelSource.java:435-445 | an empty path is the element itself; a segment ends the walk on anything but an array or an object, and on an object without that member |
| ResourceModelSource.NonEmptyText | src/main/groovy/com/rundeck/plugins/ansible/plugin/AnsibleResourceModelSource.java:447 | a value only for a primitive with a non-empty text, and then that text |
| ResourceModelSource.ItemValue | src/main/groovy/com/rundeck/plugins/ansible/plugin/AnsibleResourceModelSource.java:431-457 | an interesting item's value is never empty |
| ResourceModelSource.ItemValueReadsPrimitive | src/main/groovy/com/rundeck/plugins/ansible/plugin/AnsibleResourceModelSource.java:431-457 | an item has a value exactly when the element its dotted path walks to (or, for a plain name, the top-level member) exists and is a primitive with a non-empty text, and the value is that text |
| ResourceModelSource.WalkArrayIndex | src/main/groovy/com/rundeck/plugins/ansible/plugin/AnsibleResourceModelSource.java:437-443 | an array is entered only at a digit segment whose index is in range; an out-of-range index or another segment ends the walk with nothing |
| ResourceModelSource.WalkConcat | src/main/groovy/com/rundeck/plugins/ansible/plugin/AnsibleResourceModelSource.java:435-445 | walking a path in two halves is walking the whole path, and a walk that ends early stays ended |
| ResourceModelSource.ItemAttributes | src/main/groovy/com/rundeck/plugins/ansible/plugin/AnsibleResourceModelSource.java:431-457 | no item attribute is ever empty |
| ResourceModelSource.ItemAttributesCoverItems | src/main/groovy/com/rundeck/plugins/ansible/plugin/AnsibleResourceModelSource.java:431-457 | every item that has a value puts its attribute in the map |
| ResourceModelSource.ItemAttributesComeFromItems | src/main/groovy/com/rundeck/plugins/ansible/plugin/AnsibleResourceModelSource.java:431-457 | every attribute in the map is the value of an item of that name |
| ResourceModelSource.ItemAttributesOfDistinct | src/main/groovy/com/rundeck/plugins/ansible/plugin/AnsibleResourceModelSource.java:431-457 | when no two items name the same attribute, every item with a value contributes exactly that value |
| ResourceModelSource.ReadItem | src/main/groovy/com/rundeck/plugins/ansible/plugin/AnsibleResourceModelSource.java:432-455 | one item's value by the loop equals the specified value |
| ResourceModelSource.ItemAttributesStep | src/main/groovy/com/rundeck/plugins/ansible/plugin/AnsibleResourceModelSource.java:431-457 | one more item sets its attribute when it has a value and leaves the attributes alone otherwise |
| ResourceModelSource.SetItems | src/main/groovy/com/rundeck/plugins/ansible/plugin/AnsibleResourceModelSource.java:431-457 | the items loop adds exactly the items' attributes on top of what was there |
| ResourceModelSource.IgnorePrefixes | src/main/groovy/com/rundeck/plugins/ansible/plugin/AnsibleResourceModelSource.java:484-489 | the trimmed comma-separated pieces of a non-empty ignore list, and none otherwise |
| ResourceModelSource.AppendTrimmed | src/main/groovy/com/rundeck/plugins/ansible/plugin/AnsibleResourceModelSource.java:486-488 | the list keeps its entries and gains each piece, trimmed, in order: the old list followed by the trimmed pieces |
| ResourceModelSource.BuildSkipList | src/main/groovy/com/rundeck/plugins/ansible/plugin/AnsibleResourceModelSource.java:463-489 | the special variable prefixes followed by the ignore prefixes |
| ResourceModelSource.SkipVar | src/main/groovy/com/rundeck/plugins/ansible/plugin/AnsibleResourceModelSource.java:95-100 | skipVar is true exactly when the name starts with one of the prefixes |
| ResourceModelSource.ImportedVars | src/main/groovy/com/rundeck/plugins/ansible/plugin/AnsibleResourceModelSource.java:492-506 | a fact is imported exactly when no skip prefix starts its name; a string is imported verbatim |
| ResourceModelSource.ImportVars | src/main/groovy/com/rundeck/plugins/ansible/plugin/AnsibleResourceModelSource.java:492-506 | the import loop adds exactly the imported variables on top of the attributes |
| ResourceModelSource.EmptyIgnorePieceSkipsEverything | src/main/groovy/com/rundeck/plugins/ansible/plugin/AnsibleResourceModelSource.java:484-506 | an ignore list with an empty piece, such as "a,,b", imports nothing at all |
| ResourceModelSource.NodeFromFacts | src/main/groovy/com/rundeck/plugins/ansible/plugin/AnsibleResourceModelSource.java:301-509 | a node exactly when the document is an object whose identity and details can be read; the node then carries its name, address, login, tags, description, the four os fields and the attributes |
| ResourceModelSource.OptionalFact | src/main/groovy/com/rundeck/plugins/ansible/plugin/AnsibleResourceModelSource.java:350-379 | an optional fact is unset exactly when it is absent (or JSON null where the source checks isJsonNull); otherwise it is its string form, and a fact without one throws |
| ResourceModelSource.JoinedDescription | src/main/groovy/com/rundeck/plugins/ansible/plugin/AnsibleResourceModelSource.java:349-360 | the fallback description: unset exactly when neither the distribution nor its version is set; otherwise the trimmed text of each set one followed by a blank |
| ResourceModelSource.JoinedDescriptionOfPlainWords | src/main/groovy/com/rundeck/plugins/ansible/plugin/AnsibleResourceModelSource.java:349-360 | a distribution and version without outer blanks give "distribution version" |
| ResourceModelSource.DescriptionOf | src/main/groovy/com/rundeck/plugins/ansible/plugin/AnsibleResourceModelSource.java:345-360 | ansible_lsb.description when present (failing when it has no string form, or when ansible_lsb is no object); otherwise the joined distribution and version, failing when either fact has no string form |
| ResourceModelSource.NodeDetails | src/main/groovy/com/rundeck/plugins/ansible/plugin/AnsibleResourceModelSource.java:345-379 | the details read exactly when the description and the four os facts can be read; osFamily is ansible_os_family and osVersion ansible_kernel when present, osName ansible_os_name and osArch ansible_architecture when present and not null |
| ResourceModelSource.NodeNameAndHostname | src/main/groovy/com/rundeck/plugins/ansible/plugin/AnsibleResourceModelSource.java:308-321 | the name is always inventory_hostname; the address is ansible_host, else ansible_ssh_host, else the name |
| ResourceModelSource.HostnameOf | src/main/groovy/com/rundeck/plugins/ansible/plugin/AnsibleResourceModelSource.java:308-318 | ansible_host's string form when present and readable; else ansible_ssh_host's; any address other than the inventory name comes from one of them |
| ResourceModelSource.NodeUsernamePriority | src/main/groovy/com/rundeck/plugins/ansible/plugin/AnsibleResourceModelSource.java:323-331 | the login is the first present of ansible_user, ansible_ssh_user and ansible_user_id, else the configured SSH user |
| ResourceModelSource.UsernameOf | src/main/groovy/com/rundeck/plugins/ansible/plugin/AnsibleResourceModelSource.java:323-331 | the first present of ansible_user, ansible_ssh_user and ansible_user_id, read as a string or failing with a malformed fact naming it; the configured ssh user when none is present |
| ResourceModelSource.NodeTags | src/main/groovy/com/rundeck/plugins/ansible/plugin/AnsibleResourceModelSource.java:334-343 | the tags are the group names the ignore prefix does not drop, plus the extra tag when one is set |
| ResourceModelSource.ReadIdentity | src/main/groovy/com/rundeck/plugins/ansible/plugin/AnsibleResourceModelSource.java:308-343 | the statement sequence reads the name, address, login and tags as specified |
| ResourceModelSource.ReadAttributes | src/main/groovy/com/rundeck/plugins/ansible/plugin/AnsibleResourceModelSource.java:383-507 | the loops give the items' attributes, then the imported variables |
| ResourceModelSource.ReadAttributesFrom | src/main/groovy/com/rundeck/plugins/ansible/plugin/AnsibleResourceModelSource.java:431-507 | the same for any table of items |
| ResourceModelSource.NodeFromFactFile | src/main/groovy/com/rundeck/plugins/ansible/plugin/AnsibleResourceModelSource.java:301-509 | the per-file body gives the specified node or failure |
| ResourceModelSource.FactResults | src/main/groovy/com/rundeck/plugins/ansible/plugin/AnsibleResourceModelSource.java:300-509 | one result per document, in order |
| ResourceModelSource.CollectPrefixFailure | src/main/groovy/com/rundeck/plugins/ansible/plugin/AnsibleResourceModelSource.java:291-300 | once a prefix of the documents fails, the listing fails the same way |
| ResourceModelSource.CollectAbortsOnAnyFailure | src/main/groovy/com/rundeck/plugins/ansible/plugin/AnsibleResourceModelSource.java:291-509 | the listing fails exactly when some document fails; otherwise every document's node name is in the node set |
| ResourceModelSource.Collect | src/main/groovy/com/rundeck/plugins/ansible/plugin/AnsibleResourceModelSource.java:291-509 | a listing succeeds only when every document gives a node; every node is stored under its own name, and the last document's node is the one kept under its name |
| ResourceModelSource.CollectStep | src/main/groovy/com/rundeck/plugins/ansible/plugin/AnsibleResourceModelSource.java:300-509 | one more document adds its node under its name, or ends the listing with its failure |
| ResourceModelSource.GetNodes | src/main/groovy/com/rundeck/plugins/ansible/plugin/AnsibleResourceModelSource.java:300-509 | the file loop gives the node set of the documents, a later node replacing an earlier one of the same name |
| NodeExecutor.WindowsMarkerAnywhere | src/main/groovy/com/rundeck/plugins/ansible/plugin/AnsibleNodeExecutor.java:113-119 | "windows" in any letter case anywhere in osFamily makes the node a Windows host |
| NodeExecutor.IsWindows | src/main/groovy/com/rundeck/plugins/ansible/plugin/AnsibleNodeExecutor.java:113-119 | a node without osFamily is never Windows; WindowsMarkerAnywhere and WindowsMarkerFound state the rest |
| NodeExecutor.WindowsMarkerFound | src/main/groovy/com/rundeck/plugins/ansible/plugin/AnsibleNodeExecutor.java:113-119 | a Windows node has "windows", in some letter case, at some position of its osFamily: the converse of WindowsMarkerAnywhere |
| NodeExecutor.NoOsFamilyIsNotWindows | src/main/groovy/com/rundeck/plugins/ansible/plugin/AnsibleNodeExecutor.java:113-119 | a node without osFamily is not a Windows host |
| NodeExecutor.NodeProperty | src/main/groovy/com/rundeck/plugins/ansible/plugin/AnsibleNodeExecutor.java:121-138 | the node attribute, else the project property, else the framework property, else the default |
| NodeExecutor.ExecutablesDefault | src/main/groovy/com/rundeck/plugins/ansible/plugin/AnsibleNodeExecutor.java:121-138 | with nothing configured, the shells are /bin/sh and powershell.exe |
| NodeExecutor.CommandArgsPrefix | src/main/groovy/com/rundeck/plugins/ansible/plugin/AnsibleNodeExecutor.java:141-151 | the arguments of a prefix of the command are a prefix of the arguments |
| NodeExecutor.CommandArgs | src/main/groovy/com/rundeck/plugins/ansible/plugin/AnsibleNodeExecutor.java:141-151 | the text starts with "executable=" and the shell, and ends with the last element's piece, quoted for Unix and bare for Windows |
| NodeExecutor.CommandArgsStartWithExecutable | src/main/groovy/com/rundeck/plugins/ansible/plugin/AnsibleNodeExecutor.java:141-151 | the argument text starts with "executable=" and the shell |
| NodeExecutor.ElementInPlace | src/main/groovy/com/rundeck/plugins/ansible/plugin/AnsibleNodeExecutor.java:141-151 | every element appears in order and unaltered: single-quoted after a space for Unix, after a space alone for Windows, with no quote escaping |
| NodeExecutor.BuildCommandArgs | src/main/groovy/com/rundeck/plugins/ansible/plugin/AnsibleNodeExecutor.java:141-151 | the two StringBuilder loops give the argument text for the platform's shell |
| NodeExecutor.BuildJobConf | src/main/groovy/com/rundeck/plugins/ansible/plugin/AnsibleNodeExecutor.java:154-171 | exactly four entries: win_shell or shell by platform, the arguments, the node name as limit, and "True" exactly when ansible.debug is "true", else "False" |
| NodeExecutor.ShellModulesHaveNoReference | src/main/groovy/com/rundeck/plugins/ansible/plugin/AnsibleNodeExecutor.java:156-162 | the module names hold no data reference, so expansion never changes them |
| NodeExecutor.AdHocTarget | src/main/groovy/com/rundeck/plugins/ansible/plugin/AnsibleNodeExecutor.java:154-174 | the builder runs the platform's shell module with the expanded argument text |
| NodeExecutor.LimitIsTheNode | src/main/groovy/com/rundeck/plugins/ansible/plugin/AnsibleNodeExecutor.java:165 | the builder limits the run to this node unless the limit is disabled |
| NodeExecutor.DebugFollowsSystemProperty | src/main/groovy/com/rundeck/plugins/ansible/plugin/AnsibleNodeExecutor.java:167-171 | the builder's debug flag is on exactly when ansible.debug is "true" |
| NodeExecutor.SucceedsOnlyWhenBuiltAndRun | src/main/groovy/com/rundeck/plugins/ansible/plugin/AnsibleNodeExecutor.java:176-190 | success exactly when the runner was built and ran; a ConfigurationException is a parse-arguments failure and a run exception an Ansible failure, each with its message |
| NodeExecutor.Outcome | src/main/groovy/com/rundeck/plugins/ansible/plugin/AnsibleNodeExecutor.java:176-190 | success exactly when built and run; an escaping exception exactly when the build failed with a non-configuration error, and then that error; every failure result is for the node, a parse-arguments failure exactly when the build failed |
| NodeExecutor.ExecuteCommand | src/main/groovy/com/rundeck/plugins/ansible/plugin/AnsibleNodeExecutor.java:113-190 | the outcome for the node's job configuration; temporary files are deleted only after a successful run with debug off, and both failure returns keep the created file |
| NodeExecutor.RunOnNode | src/main/groovy/com/rundeck/plugins/ansible/plugin/AnsibleNodeExecutor.java:174-190 | build, run, and clean up only on success, with the same outcome and file state |
| NodeExecutor.SecretsPathJobConf | src/main/groovy/com/rundeck/plugins/ansible/plugin/AnsibleNodeExecutor.java:214-220 | listSecretsPath's job configuration holds only the node name as limit |
| NodeExecutor.PrepareSecretBundle | src/main/groovy/com/rundeck/plugins/ansible/plugin/AnsibleNodeExecutor.java:199-211 | the bundle of a builder for the node, keyed with the limit and debug entries |
| NodeExecutor.BundleJobConfNamesNoSecret | src/main/groovy/com/rundeck/plugins/ansible/plugin/AnsibleNodeExecutor.java:199-211 | the limit and debug entries name no secret, so the bundle's paths are those of a builder with no job configuration |
| SecretBundle.DefaultSecretBundle.AddSecret | src/main/groovy/com/rundeck/plugins/ansible/util/AnsibleUtil.java:18-23 | a secret under a used key replaces the earlier one |
| SecretBundle.CreateBundle | src/main/groovy/com/rundeck/plugins/ansible/util/AnsibleUtil.java:14-51 | the four conditional additions give a fresh bundle holding the specified entries, or the specified error |
| SecretBundle.BundleFailsExactlyOnUnreadableSlot | src/main/groovy/com/rundeck/plugins/ansible/util/AnsibleUtil.java:16-47 | the bundle fails exactly when a set storage path cannot be read or the passphrase lookup fails |
| SecretBundle.BundleEntries | src/main/groovy/com/rundeck/plugins/ansible/util/AnsibleUtil.java:16-47 | a bundle holds exactly the set storage paths and the passphrase key; a failing passphrase lookup always fails it |
| SecretBundle.Wrap | src/main/groovy/com/rundeck/plugins/ansible/util/AnsibleUtil.java:48-50 | a ConfigurationException becomes the bundle error "Unable to prepare secret bundle"; any other failure is passed on unchanged |
| SecretBundle.BundleKeysAreTheSetPaths | src/main/groovy/com/rundeck/plugins/ansible/util/AnsibleUtil.java:16-47 | the keys are exactly the set SSH-password, private-key and become-password paths and the passphrase key; no other entry is ever added |
| SecretBundle.PassphraseEntryHoldsPasswordData | src/main/groovy/com/rundeck/plugins/ansible/util/AnsibleUtil.java:40-45 | the passphrase entry holds the SSH-password storage data, as written, and is null without an SSH-password path |
| SecretBundle.EntriesHoldTheirSlotData | src/main/groovy/com/rundeck/plugins/ansible/util/AnsibleUtil.java:18-38 | each set storage path holds the bytes stored there, unless a later entry reuses the key |
| SecretBundle.PassphraseFailureIsBundleError | src/main/groovy/com/rundeck/plugins/ansible/util/AnsibleUtil.java:17-50 | once every set storage slot before it has been read, a failing passphrase lookup (a ConfigurationException) becomes the error "Unable to prepare secret bundle" |
| SecretBundle.UnreadablePasswordPathEscapes | src/main/groovy/com/rundeck/plugins/ansible/util/AnsibleUtil.java:18-23 | an unreadable storage path escapes unwrapped, naming the path |

## Left out

- Process and file I/O are not modelled. This covers the temporary directory and
  resource copying of `getNodes`, the directory stream over the fact files (here a
  sequence of parsed documents), the recursive delete, and the writing of
  inventory files (here fresh ids with their content).
- `runner.run()` is not executed. Its outcome is the parameter `runError`.
- `System.getProperty("ansible.debug")` is the parameter `systemDebug`.
- `PropertyResolver`, `DataContextUtils`, the storage tree, `AnsibleRunner`,
  `AnsibleInventoryBuilder` and Gson are abstract. Their source is not part of this
  model, and `AnsibleRunner`'s own defaults are not modelled.
- `AnsibleUtil.getSecretsPath` is not part of this model, because its source is not
  available. For `listSecretsPath` only the job configuration it builds is modelled.
- The plugin's property catalogue keeps only its keys, defaults and enumerations.
  Display titles, descriptions, rendering hints and registration metadata are left
  out: the factory and the `DESC` blocks.
- The debug `System.out.println` tracing and the listener plumbing are left out.
- `NodeEntryImpl` is a record. Node attributes are never null.
- A null `jobConf` is an empty map.
- Case folding (`toLowerCase`, `equalsIgnoreCase`, `Boolean.parseBoolean`) covers
  ASCII letters only.
- Exception messages for secret reads keep the path but not the appended
  `e.getMessage()` text of the storage layer.
- The storage tree's `StorageException` is taken to be unchecked. `createBundle`
  therefore wraps only `ConfigurationException`, and a storage failure escapes as
  it is.
- Child groups are values written back under their name. This gives the same
  observable result as Java's shared references, but aliasing of a group object is
  not modelled.
- The interesting-items table is walked in its insertion order; `HashMap` order is
  unspecified. No two items target the same attribute, so the order does not
  change the result.
- ResourceModelSource.Walk: a digit segment too large for `Integer.parseInt`
  throws in the source. The model is used only on the fixed table, whose indices
  are 0 and 1, and there it ends the walk with nothing.
- ResourceModelSource.AuthTypeIgnoresLetterCase: states that two spellings select
  the same credentials branch (`AuthKindOf`), not that the whole runners are equal.
- Base.ParseInt: digits are the ASCII digits only. Java's `Integer.parseInt` also
  accepts other Unicode decimal digits, which the model rejects.
- RunnerBuilder.SshTimeout and ResourceModelSource.TimeoutSetting: the configuration
  error's message leaves out the `": " + e.getMessage()` suffix of
  AnsibleRunnerBuilder.java:270 and AnsibleResourceModelSource.java:138, because the
  text of Java's NumberFormatException message is not modelled.
- The distinctness of the interesting-items attribute names is a fact of the fixed
  table, not a proved lemma; ResourceModelSource.ItemAttributesOfDistinct states what
  follows from it.
