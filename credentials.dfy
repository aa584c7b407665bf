/** The credential store: the config file holding the SHA-256 hex digests of the PIN and
    of the recovery key, and the recovery-key generator. SHA-256 is an uninterpreted,
    deterministic function `hash` fixed when the store is created. */
module Credentials {

  import opened Wrappers

  /** The contents of `vault_config.json`. */
  datatype Config = Config(pinHash: string, recoveryHash: string)

  const RecoveryKeyLength := 16

  /** `string.ascii_uppercase`, "ABC...Z" */
  const AsciiUppercase: string := seq(26, i requires 0 <= i < 26 => ('A' as int + i) as char)

  /** `string.digits`, "0123456789" */
  const Digits: string := seq(10, i requires 0 <= i < 10 => ('0' as int + i) as char)

  /** The characters `secrets.choice` draws from. */
  const RecoveryAlphabet: string := AsciiUppercase + Digits

  predicate IsRecoveryChar(c: char)
  {
    'A' <= c <= 'Z' || '0' <= c <= '9'
  }

  /** The alphabet is exactly the upper-case ASCII letters and the decimal digits. */
  lemma {:induction false} RecoveryAlphabetIsUpperAndDigits(c: char)
    ensures c in RecoveryAlphabet <==> IsRecoveryChar(c)
  {
    if 'A' <= c <= 'Z' {
      assert RecoveryAlphabet[c as int - 'A' as int] == c;
    } else if '0' <= c <= '9' {
      assert RecoveryAlphabet[26 + (c as int - '0' as int)] == c;
    }
  }

  /** `generate_recovery_key()`: sixteen independent draws from the alphabet. The random
      choice of `secrets.choice` is an arbitrary choice here. */
  method GenerateRecoveryKey() returns (key: string)
    ensures |key| == RecoveryKeyLength
    ensures forall i :: 0 <= i < |key| ==> IsRecoveryChar(key[i])
  {
    key := "";
    for n := 0 to RecoveryKeyLength
      invariant |key| == n
      invariant forall i :: 0 <= i < |key| ==> IsRecoveryChar(key[i])
    {
      assert RecoveryAlphabet[0] in RecoveryAlphabet;
      var c :| c in RecoveryAlphabet;
      RecoveryAlphabetIsUpperAndDigits(c);
      key := key + [c];
    }
  }

  /** What `verify_pin` decides for a given config file (absent or present). */
  predicate PinAccepted(config: Option<Config>, hash: string -> string, pin: string)
  {
    config.Some? && hash(pin) == config.value.pinHash
  }

  /** What `verify_recovery_key` decides for a given config file. */
  predicate RecoveryKeyAccepted(config: Option<Config>, hash: string -> string, key: string)
  {
    config.Some? && hash(key) == config.value.recoveryHash
  }

  /** The config `initialize_vault(pin, recovery_key)` writes. */
  function InitialConfig(hash: string -> string, pin: string, recoveryKey: string): Config
  {
    Config(hash(pin), hash(recoveryKey))
  }

  /** Without a config file nothing is accepted. */
  lemma UninitializedRejects(hash: string -> string, pin: string, key: string)
    ensures !PinAccepted(None, hash, pin) && !RecoveryKeyAccepted(None, hash, key)
  {
  }

  /** After initialization the PIN and the recovery key that were set are accepted;
      when SHA-256 is collision-free on the inputs, nothing else is. */
  lemma InitializedAcceptsExactly(hash: string -> string, pin: string, recoveryKey: string, guess: string)
    ensures PinAccepted(Some(InitialConfig(hash, pin, recoveryKey)), hash, pin)
    ensures RecoveryKeyAccepted(Some(InitialConfig(hash, pin, recoveryKey)), hash, recoveryKey)
    ensures hash(guess) != hash(pin) ==> !PinAccepted(Some(InitialConfig(hash, pin, recoveryKey)), hash, guess)
    ensures hash(guess) != hash(recoveryKey) ==>
              !RecoveryKeyAccepted(Some(InitialConfig(hash, pin, recoveryKey)), hash, guess)
  {
  }

  /** The config file, with the hash function used to write and check it. */
  class CredentialStore {
    const hash: string -> string
    var config: Option<Config>

    /** A store over an existing config file (or none). */
    constructor (hash: string -> string, existing: Option<Config>)
      ensures this.hash == hash && config == existing
    {
      this.hash := hash;
      config := existing;
    }

    /** `is_vault_initialized()` */
    method IsVaultInitialized() returns (initialized: bool)
      ensures initialized <==> config.Some?
    {
      initialized := config.Some?;
    }

    /** `initialize_vault(pin, recovery_key)`: overwrites whatever config existed. */
    method InitializeVault(pin: string, recoveryKey: string)
      modifies this`config
      ensures config == Some(InitialConfig(hash, pin, recoveryKey))
    {
      config := Some(InitialConfig(hash, pin, recoveryKey));
    }

    /** `verify_pin(input_pin)` */
    method VerifyPin(pin: string) returns (ok: bool)
      ensures ok <==> PinAccepted(config, hash, pin)
      ensures config.None? ==> !ok
    {
      if config.None? {
        return false;
      }
      ok := PinAccepted(config, hash, pin);
    }

    /** `verify_recovery_key(input_key)` */
    method VerifyRecoveryKey(key: string) returns (ok: bool)
      ensures ok <==> RecoveryKeyAccepted(config, hash, key)
      ensures config.None? ==> !ok
    {
      if config.None? {
        return false;
      }
      ok := RecoveryKeyAccepted(config, hash, key);
    }

    /** `os.remove("vault_config.json")` */
    method DeleteConfig()
      modifies this`config
      ensures config.None?
    {
      config := None;
    }
  }
}
