/**
 * Keystores kept abstract: a PKCS#12 keystore (RFC 7292) is a map from alias
 * to key entry, and a keystore backend (the cluster store or the local file
 * store) is a map from location to a keystore and the password protecting it.
 */
module Keystores {
  import opened Wrappers

  /** A `char[]` password; `None` is Java's null. */
  type Password = Option<string>

  /** A location key of a backend: a cluster-store id or a file path. */
  type Location = string

  datatype Certificate = Certificate(subject: string, base64: string)

  datatype PrivateKey = PrivateKey(material: string)

  /** A private key, the password protecting it, and its certificate chain. */
  datatype KeyEntry = KeyEntry(key: PrivateKey, protection: Password, chain: seq<Certificate>)

  datatype KeyStore = KeyStore(entries: map<string, KeyEntry>)

  /** `KeyStore.getInstance(PKCS12)` followed by `load(null, null)`. */
  const EmptyKeyStore: KeyStore := KeyStore(map[])

  /** `KeyStore.setKeyEntry`: the alias is (re)bound, every other alias kept. */
  function SetKeyEntry(ks: KeyStore, alias: string, key: PrivateKey, protection: Password,
                       chain: seq<Certificate>): (r: KeyStore)
    ensures r.entries.Keys == ks.entries.Keys + {alias}
    ensures r.entries[alias] == KeyEntry(key, protection, chain)
    ensures forall a :: a in ks.entries && a != alias ==> r.entries[a] == ks.entries[a]
  {
    KeyStore(ks.entries[alias := KeyEntry(key, protection, chain)])
  }

  /** `KeyStore.getCertificate`: the first certificate of the alias' chain, or null. */
  function GetCertificate(ks: KeyStore, alias: string): (r: Option<Certificate>)
    ensures r.Some? <==> alias in ks.entries && |ks.entries[alias].chain| > 0
    ensures r.Some? ==> r.value == ks.entries[alias].chain[0]
  {
    if alias in ks.entries && |ks.entries[alias].chain| > 0 then Some(ks.entries[alias].chain[0])
    else None
  }

  /** What a backend holds at one location. */
  datatype StoredKeyStore = StoredKeyStore(keyStore: KeyStore, password: Password)

  type KeystoreStore = map<Location, StoredKeyStore>

  const WrongPasswordMessage: string := "keystore password does not match"

  /**
   * `readKeyStore(location, password)`: empty when nothing is stored there,
   * a storage error when the password does not open what is stored.
   */
  function ReadKeyStore(store: KeystoreStore, location: Location, password: Password)
    : (r: Result<Option<KeyStore>, string>)
    ensures r == Success(None) <==> location !in store
    ensures r.Failure? <==> location in store && store[location].password != password
    ensures r.Success? && r.value.Some? ==> r.value.value == store[location].keyStore
  {
    if location !in store then Success(None)
    else if store[location].password == password then Success(Some(store[location].keyStore))
    else Failure(WrongPasswordMessage)
  }

  /** The keystore with every entry protected by `password`; aliases, keys and chains are kept. */
  function Reprotect(ks: KeyStore, password: Password): (r: KeyStore)
    ensures r.entries.Keys == ks.entries.Keys
    ensures forall a :: a in ks.entries ==> r.entries[a] == ks.entries[a].(protection := password)
  {
    KeyStore(map a | a in ks.entries :: ks.entries[a].(protection := password))
  }

  /** Only the last re-protection counts. */
  lemma ReprotectTwice(ks: KeyStore, first: Password, second: Password)
    ensures Reprotect(Reprotect(ks, first), second) == Reprotect(ks, second)
  {
    assert Reprotect(Reprotect(ks, first), second).entries == Reprotect(ks, second).entries;
  }

  /**
   * A successful `writeKeyStore(location, keyStore, readPassword, writePassword)`:
   * the entries, protected by `readPassword` until now, are re-protected with
   * `writePassword`, which also opens the stored keystore from now on.
   */
  function WriteKeyStore(store: KeystoreStore, location: Location, keyStore: KeyStore,
                         writePassword: Password): (r: KeystoreStore)
    ensures ReadKeyStore(r, location, writePassword) == Success(Some(Reprotect(keyStore, writePassword)))
    ensures forall p :: p != writePassword ==> ReadKeyStore(r, location, p).Failure?
    ensures forall l, p :: l != location ==> ReadKeyStore(r, l, p) == ReadKeyStore(store, l, p)
  {
    store[location := StoredKeyStore(Reprotect(keyStore, writePassword), writePassword)]
  }
}
