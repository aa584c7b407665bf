/** The symmetric cipher adapter: a key derived from the PIN (PBKDF2-HMAC-SHA256 with a
    fixed salt) drives an authenticated cipher (Fernet). Both primitives are foreign
    libraries and stay uninterpreted: a `Suite` carries them as functions, and what the
    vault assumes of them is stated as predicates that lemmas take as preconditions. */
module Cipher {

  import opened Wrappers

  /** The derived, base64-encoded Fernet key. */
  type Key = string

  /** `deriveKey` is deterministic in the PIN alone: the salt is a constant, so two vaults
      derive the same key from the same PIN. `decrypt` returns None wherever Fernet raises. */
  datatype Suite = Suite(
    deriveKey: string -> Key,
    encrypt: (Key, string) -> string,
    decrypt: (Key, string) -> Option<string>)

  /** Shown in place of a note whose content cannot be decrypted. */
  const DecryptionErrorText := "[Decryption Error: Check PIN]"

  /** `encrypt_data(data_string, pin)`: the token that `decrypt_data` under the same PIN
      opens again, whenever the cipher round-trips. */
  function EncryptData(suite: Suite, data: string, pin: string): (r: string)
    ensures RoundTrips(suite) ==> DecryptData(suite, r, pin) == data
  {
    suite.encrypt(suite.deriveKey(pin), data)
  }

  /** `decrypt_data(encrypted_string, pin)`: never fails; every failure of the cipher
      becomes the fixed error text, every success is the recovered plaintext. */
  function DecryptData(suite: Suite, token: string, pin: string): (r: string)
    ensures suite.decrypt(suite.deriveKey(pin), token).None? ==> r == DecryptionErrorText
    ensures suite.decrypt(suite.deriveKey(pin), token).Some? ==>
              r == suite.decrypt(suite.deriveKey(pin), token).value
  {
    match suite.decrypt(suite.deriveKey(pin), token)
    case Some(plain) => plain
    case None => DecryptionErrorText
  }

  /** Assumption about Fernet: a token opens under the key that sealed it. */
  ghost predicate RoundTrips(suite: Suite)
  {
    forall k, x :: suite.decrypt(k, suite.encrypt(k, x)) == Some(x)
  }

  /** Assumption about Fernet: a token fails its authentication check under any other key. */
  ghost predicate RejectsOtherKeys(suite: Suite)
  {
    forall k1, k2, x :: k1 != k2 ==> suite.decrypt(k2, suite.encrypt(k1, x)) == None
  }

  /** Under the round-trip assumption, decrypting with the PIN that encrypted gives the text back. */
  lemma DecryptEncrypt(suite: Suite, data: string, pin: string)
    requires RoundTrips(suite)
    ensures DecryptData(suite, EncryptData(suite, data, pin), pin) == data
  {
  }

  /** Under the authentication assumption, a PIN deriving another key yields exactly the error text. */
  lemma WrongPinGivesErrorText(suite: Suite, data: string, pinA: string, pinB: string)
    requires RejectsOtherKeys(suite)
    requires suite.deriveKey(pinA) != suite.deriveKey(pinB)
    ensures DecryptData(suite, EncryptData(suite, data, pinA), pinB) == DecryptionErrorText
  {
  }
}
