/** Secret bundle assembly (AnsibleUtil.createBundle): the storage entries a
    credential proxy needs for one run, keyed by storage path. A `null` byte
    array handed to the bundle is `None`. */
module SecretBundle {
  import opened Base
  import opened RunnerBuilder

  const BundleMessage: string := "Unable to prepare secret bundle"

  /** DefaultSecretBundle: the secrets added so far, by key. */
  class DefaultSecretBundle {
    var secrets: map<string, Option<seq<byte>>>

    constructor ()
      ensures secrets == map[]
    {
      secrets := map[];
    }

    /** addSecret: a later secret under the same key replaces the earlier one. */
    method AddSecret(key: string, data: Option<seq<byte>>)
      modifies this
      ensures secrets == old(secrets)[key := data]
    {
      secrets := secrets[key := data];
    }
  }

  function OptSet(o: Option<string>): set<string> {
    if o.Some? then {o.value} else {}
  }

  /** One storage slot: nothing when its path is unset, else its data under its path. */
  function SlotEntry(m: map<string, Option<seq<byte>>>, path: Option<string>,
                     data: Result<Option<seq<byte>>>): Result<map<string, Option<seq<byte>>>> {
    if path.None? then Success(m)
    else
      var d :- data;
      Success(m[path.value := d])
  }

  /** The last entry: keyed by what getPassphraseStoragePath returns (the stored
      passphrase text), holding the SSH-password storage data, as written. */
  function PassphraseEntry(c: Config, m: map<string, Option<seq<byte>>>): Result<map<string, Option<seq<byte>>>> {
    var key :- PassphraseStoragePath(c);
    if key.None? then Success(m)
    else
      var d :- PasswordStorageData(c);
      Success(m[key.value := d])
  }

  /** The four conditional additions in their order; the first failed read ends it. */
  function BundleEntries(c: Config): (r: Result<map<string, Option<seq<byte>>>>)
    ensures r.Success? ==> PassphraseStoragePath(c).Success?
    ensures r.Success? ==>
              r.value.Keys == OptSet(PasswordStoragePath(c)) + OptSet(PrivateKeyStoragePath(c)) +
                              OptSet(BecomePasswordStoragePath(c)) + OptSet(PassphraseStoragePath(c).value)
    ensures PassphraseStoragePath(c).Failure? ==> r.Failure?
  {
    var m1 :- SlotEntry(map[], PasswordStoragePath(c), PasswordStorageData(c));
    var m2 :- SlotEntry(m1, PrivateKeyStoragePath(c), PrivateKeyStorageData(c));
    var m3 :- SlotEntry(m2, BecomePasswordStoragePath(c), BecomePasswordStorageData(c));
    PassphraseEntry(c, m3)
  }

  /** The catch clause: a ConfigurationException becomes the bundle error; a
      storage-tree failure is unchecked and escapes as it is. */
  function Wrap(e: Error): (r: Error)
    ensures e.ConfigurationError? ==> r == BundleError(BundleMessage)
    ensures !e.ConfigurationError? ==> r == e
  {
    if e.ConfigurationError? then BundleError(BundleMessage) else e
  }

  /** createBundle as a value: the entries, or the wrapped first failure. */
  function CreateBundleResult(c: Config): Result<map<string, Option<seq<byte>>>> {
    match BundleEntries(c)
    case Success(m) => Success(m)
    case Failure(e) => Failure(Wrap(e))
  }

  /** createBundle: one mutable bundle, four conditional addSecret calls. */
  method CreateBundle(c: Config) returns (r: Result<DefaultSecretBundle>)
    ensures r.Success? <==> CreateBundleResult(c).Success?
    ensures r.Success? ==> fresh(r.value) && r.value.secrets == CreateBundleResult(c).value
    ensures r.Failure? ==> r.error == CreateBundleResult(c).error
  {
    var bundle := new DefaultSecretBundle();
    var passwordPath := PasswordStoragePath(c);
    if passwordPath.Some? {
      var data := PasswordStorageData(c);
      if data.Failure? {
        return Failure(Wrap(data.error));
      }
      bundle.AddSecret(passwordPath.value, data.value);
    }
    var keyPath := PrivateKeyStoragePath(c);
    if keyPath.Some? {
      var data := PrivateKeyStorageData(c);
      if data.Failure? {
        return Failure(Wrap(data.error));
      }
      bundle.AddSecret(keyPath.value, data.value);
    }
    var becomePath := BecomePasswordStoragePath(c);
    if becomePath.Some? {
      var data := BecomePasswordStorageData(c);
      if data.Failure? {
        return Failure(Wrap(data.error));
      }
      bundle.AddSecret(becomePath.value, data.value);
    }
    var passphraseKey := PassphraseStoragePath(c);
    if passphraseKey.Failure? {
      return Failure(Wrap(passphraseKey.error));
    }
    if passphraseKey.value.Some? {
      // A second read of the SSH-password data: it was read above when its path is set.
      var data := PasswordStorageData(c);
      assert data.Success?;
      bundle.AddSecret(passphraseKey.value.value, data.value);
    }
    r := Success(bundle);
  }

  /** A slot with a set path whose data cannot be read fails the bundle, and
      so does a failing passphrase lookup; nothing else does. */
  lemma BundleFailsExactlyOnUnreadableSlot(c: Config)
    ensures BundleEntries(c).Failure? <==>
              (PasswordStoragePath(c).Some? && PasswordStorageData(c).Failure?) ||
              (PrivateKeyStoragePath(c).Some? && PrivateKeyStorageData(c).Failure?) ||
              (BecomePasswordStoragePath(c).Some? && BecomePasswordStorageData(c).Failure?) ||
              PassphraseStoragePath(c).Failure?
  {
    if PassphraseStoragePath(c).Success? && PassphraseStoragePath(c).value.Some? && PasswordStoragePath(c).None? {
      assert PasswordStorageData(c) == Success(None);
    }
  }

  /** The bundle's keys are exactly the set storage paths and the passphrase
      text: no other entry is ever added. */
  lemma BundleKeysAreTheSetPaths(c: Config)
    requires BundleEntries(c).Success?
    ensures PassphraseStoragePath(c).Success?
    ensures BundleEntries(c).value.Keys ==
              OptSet(PasswordStoragePath(c)) + OptSet(PrivateKeyStoragePath(c)) +
              OptSet(BecomePasswordStoragePath(c)) + OptSet(PassphraseStoragePath(c).value)
  {
  }

  /** The passphrase entry holds the SSH-password storage data (absent when no
      SSH-password storage path is set), not a passphrase. */
  lemma PassphraseEntryHoldsPasswordData(c: Config)
    requires BundleEntries(c).Success?
    requires PassphraseStoragePath(c).Success? && PassphraseStoragePath(c).value.Some?
    ensures PasswordStorageData(c).Success?
    ensures BundleEntries(c).value[PassphraseStoragePath(c).value.value] == PasswordStorageData(c).value
    ensures PasswordStoragePath(c).None? ==> BundleEntries(c).value[PassphraseStoragePath(c).value.value] == None
  {
  }

  /** Each set storage path maps to the bytes stored there, unless a later
      entry reuses the key. */
  lemma EntriesHoldTheirSlotData(c: Config)
    requires BundleEntries(c).Success?
    ensures PassphraseStoragePath(c).Success?
    ensures var later := OptSet(PassphraseStoragePath(c).value);
            BecomePasswordStoragePath(c).Some? && BecomePasswordStoragePath(c).value !in later ==>
              BecomePasswordStoragePath(c).value in c.ctx.storage &&
              BundleEntries(c).value[BecomePasswordStoragePath(c).value] == Some(c.ctx.storage[BecomePasswordStoragePath(c).value])
    ensures var later := OptSet(BecomePasswordStoragePath(c)) + OptSet(PassphraseStoragePath(c).value);
            PrivateKeyStoragePath(c).Some? && PrivateKeyStoragePath(c).value !in later ==>
              PrivateKeyStoragePath(c).value in c.ctx.storage &&
              BundleEntries(c).value[PrivateKeyStoragePath(c).value] == Some(c.ctx.storage[PrivateKeyStoragePath(c).value])
    ensures var later := OptSet(PrivateKeyStoragePath(c)) + OptSet(BecomePasswordStoragePath(c)) +
                         OptSet(PassphraseStoragePath(c).value);
            PasswordStoragePath(c).Some? && PasswordStoragePath(c).value !in later ==>
              PasswordStoragePath(c).value in c.ctx.storage &&
              BundleEntries(c).value[PasswordStoragePath(c).value] == Some(c.ctx.storage[PasswordStoragePath(c).value])
  {
  }

  /** A failing passphrase lookup (a ConfigurationException) surfaces as the
      bundle error once the storage slots were read. */
  lemma PassphraseFailureIsBundleError(c: Config)
    requires PasswordStoragePath(c).None? || PasswordStorageData(c).Success?
    requires PrivateKeyStoragePath(c).None? || PrivateKeyStorageData(c).Success?
    requires BecomePasswordStoragePath(c).None? || BecomePasswordStorageData(c).Success?
    requires PassphraseStoragePath(c).Failure?
    ensures CreateBundleResult(c) == Failure(BundleError(BundleMessage))
  {
  }

  /** An unreadable storage path escapes unwrapped, naming the path. */
  lemma UnreadablePasswordPathEscapes(c: Config)
    requires PasswordStoragePath(c).Some? && PasswordStoragePath(c).value !in c.ctx.storage
    ensures CreateBundleResult(c) == Failure(StorageReadError(PasswordStoragePath(c).value))
  {
  }
}
