/** The property keys, default values and enumerations of the plugin's property
    catalogue (src/main/groovy/com/rundeck/plugins/ansible/ansible/AnsibleDescribable.java).
    Display titles, descriptions and rendering hints are not part of this model. */
module Describable {
  import opened Base

  const PlaybookPath: string := "ansible-playbook"
  const PlaybookInline: string := "ansible-playbook-inline"
  const InventoryInline: string := "ansible-inventory-inline"
  const Inventory: string := "ansible-inventory"
  const InjectContextVarsAsExtraVars: string := "ansible-inject-context-vars-as-extravars"
  const GenerateInventory: string := "ansible-generate-inventory"
  const Module: string := "ansible-module"
  const ModuleArgs: string := "ansible-module-args"
  const Debug: string := "ansible-debug"
  const Executable: string := "ansible-executable"
  const WindowsExecutable: string := "ansible-windows-executable"
  const DefaultExecutable: string := "/bin/sh"
  const DefaultWindowsExecutable: string := "powershell.exe"
  const GatherFacts: string := "ansible-gather-facts"
  const IgnoreErrors: string := "ansible-ignore-errors"
  const ExtraTag: string := "ansible-extra-tag"
  const Limit: string := "ansible-limit"
  const DisableLimit: string := "ansible-disable-limit"
  /** DISABLE_LIMIT_PROP's default value is the string "false". */
  const DisableLimitDefault: bool := false
  const IgnoreTags: string := "ansible-ignore-tags-prefix"
  const ImportInventoryVars: string := "ansible-import-inventory-vars"
  const IgnoreInventoryVars: string := "ansible-ignore-inventory-vars"
  const ExtraVars: string := "ansible-extra-vars"
  const ExtraParam: string := "ansible-extra-param"
  const VaultPath: string := "ansible-vault-path"
  const VaultStoragePath: string := "ansible-vault-storage-path"
  const VaultPassword: string := "ansible-vault-password"
  const SshPassword: string := "ansible-ssh-password"
  const SshPasswordOption: string := "ansible-ssh-password-option"
  const SshPasswordStoragePath: string := "ansible-ssh-password-storage-path"
  const DefaultSshPasswordOption: string := "ansible-ssh-password"
  const SshKeyPath: string := "ansible-ssh-keypath"
  const SshKeyStoragePath: string := "ansible-ssh-key-storage-path"
  const SshTimeout: string := "ansible-ssh-timeout"
  const SshUser: string := "ansible-ssh-user"
  const SshAuthType: string := "ansible-ssh-auth-type"
  const SshUseAgent: string := "ansible-ssh-use-agent"
  const SshPassphraseStoragePath: string := "ansible-ssh-passphrase-storage-path"
  const SshPassphraseOption: string := "ansible-ssh-passphrase-option"
  const DefaultSshPassphraseOption: string := "option.password"
  const Become: string := "ansible-become"
  const BecomeUser: string := "ansible-become-user"
  const BecomeMethod: string := "ansible-become-method"
  const BecomePassword: string := "ansible-become-password"
  const BecomePasswordOption: string := "ansible-become-password-option"
  const BecomePasswordStoragePath: string := "ansible-become-password-storage-path"
  const DefaultBecomePasswordOption: string := "ansible-become-password"
  const ConfigFilePath: string := "ansible-config-file-path"
  const BaseDirPath: string := "ansible-base-dir-path"
  const BinariesDirPath: string := "ansible-binaries-dir-path"
  const ProjectPropPrefix: string := "project."
  const FrameworkPropPrefix: string := "framework."

  datatype AuthenticationType = PrivateKey | Password

  function AuthenticationTypeName(t: AuthenticationType): string {
    match t
    case PrivateKey => "privateKey"
    case Password => "password"
  }

  /** AuthenticationType.valueOf: exact, case-sensitive match of a constant's name. */
  function AuthenticationTypeValueOf(name: string): (r: Option<AuthenticationType>)
    ensures r.Some? ==> AuthenticationTypeName(r.value) == name
    ensures r.None? ==> forall t: AuthenticationType :: AuthenticationTypeName(t) != name
  {
    if name == "privateKey" then Some(PrivateKey)
    else if name == "password" then Some(Password)
    else None
  }

  datatype BecomeMethodType = Doas | Dzdo | Ksu | Machinectl | Runas | Pbrun | Pfexec | Sudo | Su

  function BecomeMethodName(m: BecomeMethodType): string {
    match m
    case Doas => "doas"
    case Dzdo => "dzdo"
    case Ksu => "ksu"
    case Machinectl => "machinectl"
    case Runas => "runas"
    case Pbrun => "pbrun"
    case Pfexec => "pfexec"
    case Sudo => "sudo"
    case Su => "su"
  }

  /** BecomeMethodType.valueOf: exact, case-sensitive match of a constant's name. */
  function BecomeMethodValueOf(name: string): (r: Option<BecomeMethodType>)
    ensures r.Some? ==> BecomeMethodName(r.value) == name
    ensures r.None? ==> forall m: BecomeMethodType :: BecomeMethodName(m) != name
  {
    if name == "doas" then Some(Doas)
    else if name == "dzdo" then Some(Dzdo)
    else if name == "ksu" then Some(Ksu)
    else if name == "machinectl" then Some(Machinectl)
    else if name == "runas" then Some(Runas)
    else if name == "pbrun" then Some(Pbrun)
    else if name == "pfexec" then Some(Pfexec)
    else if name == "sudo" then Some(Sudo)
    else if name == "su" then Some(Su)
    else None
  }
}
