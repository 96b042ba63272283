/**
 * The CA lifecycle service `CaServiceImpl`: which CA is in force, creating
 * one, uploading one made of PEM and PKCS#12 parts, removing it, and loading
 * its keystore. The cluster keystore store and the local file store are maps
 * (see module Keystores); the cluster event bus is a log of effects.
 */
module CaService {
  import opened Wrappers
  import opened Keystores
  import opened Pem

  /** `CaService.DEFAULT_VALIDITY`, in days. */
  const DefaultValidity: int := 365

  /** `KeystoreMongoLocation.CA_KEYSTORE_ID`, the id of the generated CA. */
  const CaKeystoreId: string := "certificate-authority"

  /** `KeystoreMongoLocation.certificateAuthority()`: where the generated CA is stored. */
  const CaLocation: Location := CaKeystoreId

  /** `CertConstants.CA_KEY_ALIAS`. */
  const CaKeyAlias: string := "ca"

  const LocalCaId: string := "local CA"

  /** The prefix `upload` puts before the message of a failure it wraps. */
  const WriteFailurePrefix: string := "Could not write CA: "

  /** What `KeyStore.setKeyEntry` throws for a private key without a certificate chain. */
  const EmptyChainMessage: string := "Private key must be accompanied by certificate chain"

  datatype CAType = Local | Generated

  /** The descriptor `get` returns. */
  datatype CA = CA(id: string, caType: CAType)

  /** The exceptions the service lets escape. */
  datatype CaError =
    | KeyStoreStorageException(message: string)
    | CACreationException(message: string)
    | KeyStoreException(message: string)
    | NullPointerException
    | IllegalArgumentException(message: string)

  /**
   * The CA part of the server configuration: whether a CA keystore file is
   * configured (`configuredCaExists`), its path, and the CA password (null when unset).
   */
  datatype CaConfiguration = CaConfiguration(configuredCaExists: bool, caKeystoreFile: Location,
                                             caPassword: Option<string>)

  /** What `PemCaReader.readCA` returns: a private key and its certificates. */
  datatype CaKeyMaterial = CaKeyMaterial(privateKey: PrivateKey, certificates: seq<Certificate>)

  /** `PemCaReader.readCA(pem, password)`; a failure is its `CACreationException`. */
  type PemReader = (string, Option<string>) -> Result<CaKeyMaterial, string>

  /** `keyStore.load(bytes, password)` on a part that is not PEM. */
  type Pkcs12Loader = (string, Password) -> Result<KeyStore, string>

  /**
   * Why generating a CA failed: `CAKeyPair.create` throws a `CACreationException`,
   * `toKeyStore()` a `KeyStoreException`.
   */
  datatype KeyPairFailure = CreationFailed(message: string) | KeyStoreFailed(message: string)

  /** `CAKeyPair.create(organization, password, validity).toKeyStore()`, validity in days. */
  type KeyPairFactory = (string, string, int) -> Result<KeyStore, KeyPairFailure>

  /** The exception a failed CA generation lets escape from `create`. */
  function KeyPairError(failure: KeyPairFailure): (r: CaError)
    ensures failure.CreationFailed? <==> r.CACreationException?
    ensures failure.KeyStoreFailed? <==> r.KeyStoreException?
    ensures r.message == failure.message
  {
    match failure
    case CreationFailed(m) => CACreationException(m)
    case KeyStoreFailed(m) => KeyStoreException(m)
  }

  /** The observable effects of the service, in the order they happen. */
  datatype Effect =
    | Wrote(location: Location, keyStore: KeyStore, readPassword: Password, writePassword: Password)
    | CaChanged

  /** The secret the service reads and writes the generated CA with. */
  function ResolveSecret(configuration: CaConfiguration, passwordSecret: string): string {
    if configuration.caPassword != None then configuration.caPassword.value else passwordSecret
  }

  /** A configured CA password is used, whatever `password_secret` is; else `password_secret` is. */
  lemma ResolveSecretChoice(configuration: CaConfiguration, passwordSecret: string)
    ensures configuration.caPassword.Some? ==> ResolveSecret(configuration, passwordSecret) == configuration.caPassword.value
    ensures configuration.caPassword.None? ==> ResolveSecret(configuration, passwordSecret) == passwordSecret
  {
  }

  /** The validity `create` asks for, in days. */
  function ValidityDays(daysValid: Option<int>): int {
    if daysValid == None || daysValid == Some(0) then DefaultValidity else daysValid.value
  }

  /** Absent or zero means the default; any other value is taken as given. */
  lemma ValidityDefault(d: int)
    ensures ValidityDays(None) == DefaultValidity
    ensures ValidityDays(Some(0)) == DefaultValidity
    ensures d != 0 ==> ValidityDays(Some(d)) == d
    ensures ValidityDays(Some(d)) == DefaultValidity <==> d == 0 || d == DefaultValidity
  {
  }

  function StorageFailure(read: Result<Option<KeyStore>, string>): Result<Option<KeyStore>, CaError> {
    match read
    case Failure(m) => Failure(KeyStoreStorageException(m))
    case Success(ks) => Success(ks)
  }

  /** `get()`: a configured CA file wins; otherwise the generated CA, if one can be read. */
  function GetCa(configuration: CaConfiguration, secret: string, mongo: KeystoreStore)
    : Result<Option<CA>, CaError>
  {
    if configuration.configuredCaExists then Success(Some(CA(LocalCaId, Local)))
    else
      match ReadKeyStore(mongo, CaLocation, Some(secret))
      case Failure(m) => Failure(KeyStoreStorageException(m))
      case Success(None) => Success(None)
      case Success(Some(_)) => Success(Some(CA(CaKeystoreId, Generated)))
  }

  /** `loadKeyStore()`: the same precedence as `get`, returning the keystore itself. */
  function LoadCaKeyStore(configuration: CaConfiguration, secret: string, mongo: KeystoreStore,
                          files: KeystoreStore): Result<Option<KeyStore>, CaError>
  {
    if configuration.configuredCaExists then
      if configuration.caPassword == None then Failure(NullPointerException)
      else StorageFailure(ReadKeyStore(files, configuration.caKeystoreFile, configuration.caPassword))
    else StorageFailure(ReadKeyStore(mongo, CaLocation, Some(secret)))
  }

  /** With a CA file configured, `get` names the local CA without looking at the cluster store. */
  lemma ConfiguredFileWins(configuration: CaConfiguration, secret: string, mongo: KeystoreStore)
    requires configuration.configuredCaExists
    ensures GetCa(configuration, secret, mongo) == Success(Some(CA(LocalCaId, Local)))
    ensures forall other :: GetCa(configuration, secret, other) == GetCa(configuration, secret, mongo)
  {
  }

  /**
   * With a CA file configured, `loadKeyStore` ignores the cluster store and
   * reads the file with the configured CA password; without one it throws.
   */
  lemma LoadFromConfiguredFile(configuration: CaConfiguration, secret: string, mongo: KeystoreStore,
                               files: KeystoreStore)
    requires configuration.configuredCaExists
    ensures forall other :: LoadCaKeyStore(configuration, secret, other, files)
                            == LoadCaKeyStore(configuration, secret, mongo, files)
    ensures configuration.caPassword.None? ==>
              LoadCaKeyStore(configuration, secret, mongo, files) == Failure(NullPointerException)
    ensures configuration.caPassword.Some? ==>
              LoadCaKeyStore(configuration, secret, mongo, files)
              == StorageFailure(ReadKeyStore(files, configuration.caKeystoreFile, configuration.caPassword))
  {
  }

  /**
   * Without a CA file, `get` reports the generated CA exactly when a keystore
   * opened by the secret is stored at the CA location, and nothing exactly
   * when none is stored there.
   */
  lemma GetGeneratedIff(configuration: CaConfiguration, secret: string, mongo: KeystoreStore)
    requires !configuration.configuredCaExists
    ensures GetCa(configuration, secret, mongo) == Success(Some(CA(CaKeystoreId, Generated)))
        <==> CaLocation in mongo && mongo[CaLocation].password == Some(secret)
    ensures GetCa(configuration, secret, mongo) == Success(None) <==> CaLocation !in mongo
  {
  }

  /** `get` and `loadKeyStore` agree on whether there is a CA, and on failure. */
  lemma GetAgreesWithLoad(configuration: CaConfiguration, secret: string, mongo: KeystoreStore,
                          files: KeystoreStore)
    requires !configuration.configuredCaExists
    ensures GetCa(configuration, secret, mongo).Success? <==> LoadCaKeyStore(configuration, secret, mongo, files).Success?
    ensures GetCa(configuration, secret, mongo) == Success(None)
        <==> LoadCaKeyStore(configuration, secret, mongo, files) == Success(None)
  {
  }

  /**
   * A CA written with the secret that `get` reads with is reported as
   * generated, and `loadKeyStore` gives back what was written, every entry
   * now protected by the secret.
   */
  lemma WrittenWithSecretIsGenerated(configuration: CaConfiguration, secret: string,
                                     mongo: KeystoreStore, files: KeystoreStore, ks: KeyStore)
    requires !configuration.configuredCaExists
    ensures GetCa(configuration, secret, WriteKeyStore(mongo, CaLocation, ks, Some(secret)))
         == Success(Some(CA(CaKeystoreId, Generated)))
    ensures LoadCaKeyStore(configuration, secret, WriteKeyStore(mongo, CaLocation, ks, Some(secret)), files)
         == Success(Some(Reprotect(ks, Some(secret))))
  {
  }

  /**
   * The secret is not tried twice: a CA written under `password_secret` cannot
   * be read once a different CA password is configured.
   */
  lemma SwitchedSecretFailsToRead(configuration: CaConfiguration, passwordSecret: string,
                                  mongo: KeystoreStore, ks: KeyStore)
    requires !configuration.configuredCaExists
    requires configuration.caPassword.Some? && configuration.caPassword.value != passwordSecret
    ensures GetCa(configuration, ResolveSecret(configuration, passwordSecret),
                  WriteKeyStore(mongo, CaLocation, ks, Some(passwordSecret))).Failure?
  {
  }

  /** What `startOver` leaves in the cluster store: everything but the CA. */
  function RemoveCa(mongo: KeystoreStore): (r: KeystoreStore)
    ensures CaLocation !in r
    ensures forall l :: l != CaLocation ==> (l in r <==> l in mongo) && (l in r ==> r[l] == mongo[l])
  {
    mongo - {CaLocation}
  }

  /** After `startOver`, `get` finds no CA (absent a CA file), and a second `startOver` changes nothing. */
  lemma StartOverClearsCa(configuration: CaConfiguration, secret: string, mongo: KeystoreStore)
    requires !configuration.configuredCaExists
    ensures GetCa(configuration, secret, RemoveCa(mongo)) == Success(None)
    ensures RemoveCa(RemoveCa(mongo)) == RemoveCa(mongo)
  {
  }

  /** `upload` sniffs a part for the PEM certificate boundary. */
  predicate IsPemPart(part: string) {
    Contains(part, PemCertificateMarker)
  }

  /** One turn of `upload`'s loop over the parts. */
  function ApplyPart(keyStore: KeyStore, part: string, password: Option<string>,
                     reader: PemReader, loader: Pkcs12Loader): Result<KeyStore, CaError>
  {
    if IsPemPart(part) then
      match reader(part, password)
      case Failure(m) => Failure(CACreationException(m))
      case Success(ca) =>
        if ca.certificates == [] then Failure(IllegalArgumentException(EmptyChainMessage))
        else Success(SetKeyEntry(keyStore, CaKeyAlias, ca.privateKey, password, ca.certificates))
    else
      match loader(part, password)
      case Failure(m) => Failure(CACreationException(WriteFailurePrefix + m))
      case Success(loaded) => Success(loaded)
  }

  /** Whether a part can be folded in; this does not depend on the parts before it. */
  predicate PartAccepted(part: string, password: Option<string>, reader: PemReader, loader: Pkcs12Loader) {
    if IsPemPart(part) then reader(part, password).Success? && |reader(part, password).value.certificates| > 0
    else loader(part, password).Success?
  }

  /**
   * The exception a rejected part raises: the reader's own `CACreationException`,
   * the unchecked refusal of a key without a chain, or the loader's failure
   * wrapped by the `catch` of `upload`.
   */
  function Rejection(part: string, password: Option<string>, reader: PemReader, loader: Pkcs12Loader): CaError
    requires !PartAccepted(part, password, reader, loader)
  {
    if IsPemPart(part) then
      if reader(part, password).Failure? then CACreationException(reader(part, password).error)
      else IllegalArgumentException(EmptyChainMessage)
    else CACreationException(WriteFailurePrefix + loader(part, password).error)
  }

  /** The keystore `upload` builds in memory from its parts, or the first failure. */
  function FoldParts(parts: seq<string>, acc: KeyStore, password: Option<string>,
                     reader: PemReader, loader: Pkcs12Loader): (r: Result<KeyStore, CaError>)
    ensures r.Failure? ==> r.error.CACreationException? || r.error == IllegalArgumentException(EmptyChainMessage)
    decreases |parts|
  {
    if parts == [] then Success(acc)
    else
      match ApplyPart(acc, parts[0], password, reader, loader)
      case Failure(e) => Failure(e)
      case Success(next) => FoldParts(parts[1..], next, password, reader, loader)
  }

  /** The fold succeeds exactly when every part is accepted. */
  lemma {:induction false} FoldSucceedsIffAllAccepted(parts: seq<string>, acc: KeyStore,
      password: Option<string>, reader: PemReader, loader: Pkcs12Loader)
    ensures FoldParts(parts, acc, password, reader, loader).Success?
        <==> forall i :: 0 <= i < |parts| ==> PartAccepted(parts[i], password, reader, loader)
    decreases |parts|
  {
    if parts != [] {
      var step := ApplyPart(acc, parts[0], password, reader, loader);
      assert step.Success? <==> PartAccepted(parts[0], password, reader, loader);
      if step.Success? {
        FoldSucceedsIffAllAccepted(parts[1..], step.value, password, reader, loader);
        assert forall i :: 1 <= i < |parts| ==> parts[i] == parts[1..][i - 1];
      }
    }
  }

  /**
   * The loop stops at the first part that throws: a failed fold reports the
   * exception of the first rejected part.
   */
  lemma {:induction false} FoldReportsFirstRejected(parts: seq<string>, k: int, acc: KeyStore,
      password: Option<string>, reader: PemReader, loader: Pkcs12Loader)
    requires 0 <= k < |parts|
    requires forall i :: 0 <= i < k ==> PartAccepted(parts[i], password, reader, loader)
    requires !PartAccepted(parts[k], password, reader, loader)
    ensures FoldParts(parts, acc, password, reader, loader)
            == Failure(Rejection(parts[k], password, reader, loader))
    decreases k
  {
    var step := ApplyPart(acc, parts[0], password, reader, loader);
    if k > 0 {
      assert PartAccepted(parts[0], password, reader, loader);
      assert step.Success?;
      assert forall i :: 0 <= i < k - 1 ==> parts[1..][i] == parts[i + 1];
      FoldReportsFirstRejected(parts[1..], k - 1, step.value, password, reader, loader);
    }
  }

  /** Folding `a + b` is folding `a`, then folding `b` from where `a` left off. */
  lemma {:induction false} FoldAppend(a: seq<string>, b: seq<string>, acc: KeyStore,
      password: Option<string>, reader: PemReader, loader: Pkcs12Loader)
    ensures FoldParts(a + b, acc, password, reader, loader)
         == match FoldParts(a, acc, password, reader, loader)
            case Failure(e) => Failure(e)
            case Success(k) => FoldParts(b, k, password, reader, loader)
    decreases |a|
  {
    if a == [] {
      assert a + b == b;
    } else {
      assert (a + b)[0] == a[0];
      assert (a + b)[1..] == a[1..] + b;
      var step := ApplyPart(acc, a[0], password, reader, loader);
      if step.Success? {
        FoldAppend(a[1..], b, step.value, password, reader, loader);
      }
    }
  }

  /**
   * A PEM part stores its key under the one CA alias, so the last PEM part of
   * an upload replaces what earlier PEM parts stored there.
   */
  lemma LaterPemPartReplaces(a: seq<string>, p: string, acc: KeyStore, password: Option<string>,
                             reader: PemReader, loader: Pkcs12Loader)
    requires FoldParts(a, acc, password, reader, loader).Success?
    requires IsPemPart(p) && reader(p, password).Success? && reader(p, password).value.certificates != []
    ensures var r := FoldParts(a + [p], acc, password, reader, loader);
            && r.Success?
            && CaKeyAlias in r.value.entries
            && r.value.entries[CaKeyAlias]
               == KeyEntry(reader(p, password).value.privateKey, password, reader(p, password).value.certificates)
  {
    FoldAppend(a, [p], acc, password, reader, loader);
    assert [p][1..] == [];
  }

  /** A part that is not PEM is loaded as a whole keystore and replaces everything before it. */
  lemma KeystorePartReplacesAll(a: seq<string>, p: string, acc: KeyStore, password: Option<string>,
                                reader: PemReader, loader: Pkcs12Loader)
    requires FoldParts(a, acc, password, reader, loader).Success?
    requires !IsPemPart(p) && loader(p, password).Success?
    ensures FoldParts(a + [p], acc, password, reader, loader) == Success(loader(p, password).value)
  {
    FoldAppend(a, [p], acc, password, reader, loader);
    assert [p][1..] == [];
  }

  /** What `upload` returns, given the folded keystore and the outcome of the write. */
  function UploadResult(folded: Result<KeyStore, CaError>, backendFault: Option<string>): (r: Result<(), CaError>)
    ensures r.Success? <==> folded.Success? && backendFault.None?
    ensures folded.Failure? ==> r == Failure(folded.error)
    ensures folded.Success? && backendFault.Some? ==>
              r == Failure(CACreationException(WriteFailurePrefix + backendFault.value))
  {
    if folded.Failure? then Failure(folded.error)
    else if backendFault.Some? then Failure(CACreationException(WriteFailurePrefix + backendFault.value))
    else Success(())
  }

  /**
   * `upload` fails with a `CACreationException`, except for a PEM key without
   * a chain, whose unchecked exception passes the `catch` untouched.
   */
  lemma UploadFailureKinds(parts: seq<string>, password: Option<string>, reader: PemReader,
                           loader: Pkcs12Loader, backendFault: Option<string>)
    ensures var r := UploadResult(FoldParts(parts, EmptyKeyStore, password, reader, loader), backendFault);
            r.Failure? ==> r.error.CACreationException? || r.error == IllegalArgumentException(EmptyChainMessage)
    ensures var r := UploadResult(FoldParts(parts, EmptyKeyStore, password, reader, loader), backendFault);
            r.Failure? && r.error.IllegalArgumentException? ==>
              exists i :: 0 <= i < |parts| && IsPemPart(parts[i]) && reader(parts[i], password).Success?
                          && reader(parts[i], password).value.certificates == []
  {
    var folded := FoldParts(parts, EmptyKeyStore, password, reader, loader);
    if folded.Failure? && folded.error.IllegalArgumentException? {
      FoldSucceedsIffAllAccepted(parts, EmptyKeyStore, password, reader, loader);
      var k :| 0 <= k < |parts| && !PartAccepted(parts[k], password, reader, loader);
      var j := FirstRejected(parts, k, password, reader, loader);
      FoldReportsFirstRejected(parts, j, EmptyKeyStore, password, reader, loader);
      assert IsPemPart(parts[j]) && reader(parts[j], password).Success?;
    }
  }

  /** Some rejected part at or before `k` is the first rejected part. */
  lemma FirstRejected(parts: seq<string>, k: int, password: Option<string>, reader: PemReader,
                      loader: Pkcs12Loader) returns (j: int)
    requires 0 <= k < |parts| && !PartAccepted(parts[k], password, reader, loader)
    ensures 0 <= j <= k && !PartAccepted(parts[j], password, reader, loader)
    ensures forall i :: 0 <= i < j ==> PartAccepted(parts[i], password, reader, loader)
    decreases k
  {
    if forall i :: 0 <= i < k ==> PartAccepted(parts[i], password, reader, loader) {
      j := k;
    } else {
      var i :| 0 <= i < k && !PartAccepted(parts[i], password, reader, loader);
      j := FirstRejected(parts, i, password, reader, loader);
    }
  }

  /**
   * An uploaded CA is re-protected with the secret, which is the secret `get`
   * and `loadKeyStore` read with: after a successful upload the CA is seen as
   * generated and loads as the folded keystore, its CA entry now protected
   * by the secret instead of the upload password.
   */
  lemma UploadedCaIsReadable(configuration: CaConfiguration, secret: string, mongo: KeystoreStore,
                             files: KeystoreStore, parts: seq<string>, password: Option<string>,
                             reader: PemReader, loader: Pkcs12Loader)
    requires !configuration.configuredCaExists
    requires FoldParts(parts, EmptyKeyStore, password, reader, loader).Success?
    ensures var ks := FoldParts(parts, EmptyKeyStore, password, reader, loader).value;
            && GetCa(configuration, secret, WriteKeyStore(mongo, CaLocation, ks, Some(secret)))
               == Success(Some(CA(CaKeystoreId, Generated)))
            && LoadCaKeyStore(configuration, secret, WriteKeyStore(mongo, CaLocation, ks, Some(secret)), files)
               == Success(Some(Reprotect(ks, Some(secret))))
            && (CaKeyAlias in ks.entries ==>
                  Reprotect(ks, Some(secret)).entries[CaKeyAlias]
                  == KeyEntry(ks.entries[CaKeyAlias].key, Some(secret), ks.entries[CaKeyAlias].chain))
  {
    WrittenWithSecretIsGenerated(configuration, secret, mongo, files,
                                 FoldParts(parts, EmptyKeyStore, password, reader, loader).value);
  }

  class CaServiceImpl {
    const configuration: CaConfiguration
    /** The resolved secret: the configured CA password, else `password_secret`. */
    const passwordSecret: string
    const pemCaReader: PemReader
    const pkcs12Loader: Pkcs12Loader
    const caKeyPair: KeyPairFactory
    /** The cluster keystore store. */
    var mongoKeystore: KeystoreStore
    /** The local keystore files. */
    var fileKeystore: KeystoreStore
    /** Writes to the cluster store and events posted on the cluster bus. */
    var log: seq<Effect>

    constructor (mongoKeystore: KeystoreStore, fileKeystore: KeystoreStore, configuration: CaConfiguration,
                 pemCaReader: PemReader, pkcs12Loader: Pkcs12Loader, caKeyPair: KeyPairFactory,
                 passwordSecret: string)
      ensures this.configuration == configuration
      ensures this.passwordSecret == ResolveSecret(configuration, passwordSecret)
      ensures this.pemCaReader == pemCaReader && this.pkcs12Loader == pkcs12Loader && this.caKeyPair == caKeyPair
      ensures this.mongoKeystore == mongoKeystore && this.fileKeystore == fileKeystore && log == []
    {
      this.mongoKeystore := mongoKeystore;
      this.fileKeystore := fileKeystore;
      this.pemCaReader := pemCaReader;
      this.pkcs12Loader := pkcs12Loader;
      this.caKeyPair := caKeyPair;
      this.configuration := configuration;
      this.passwordSecret := ResolveSecret(configuration, passwordSecret);
      this.log := [];
    }

    /** The CA in force, read with the resolved secret. */
    method Get() returns (r: Result<Option<CA>, CaError>)
      ensures r == GetCa(configuration, passwordSecret, mongoKeystore)
    {
      if configuration.configuredCaExists {
        return Success(Some(CA(LocalCaId, Local)));
      }
      var keystore := ReadKeyStore(mongoKeystore, CaLocation, Some(passwordSecret));
      match keystore
      case Failure(m) => r := Failure(KeyStoreStorageException(m));
      case Success(ks) => r := if ks.Some? then Success(Some(CA(CaKeystoreId, Generated))) else Success(None);
    }

    /** `mongoKeystore.writeKeyStore`: fails with the backend's message, else stores and logs the write. */
    method WriteToMongo(location: Location, keyStore: KeyStore, readPassword: Password, writePassword: Password,
                        backendFault: Option<string>) returns (fault: Option<string>)
      modifies this`mongoKeystore, this`log
      ensures fault == backendFault
      ensures fault.Some? ==> mongoKeystore == old(mongoKeystore) && log == old(log)
      ensures fault.None? ==> mongoKeystore == WriteKeyStore(old(mongoKeystore), location, keyStore, writePassword)
      ensures fault.None? ==> log == old(log) + [Wrote(location, keyStore, readPassword, writePassword)]
    {
      fault := backendFault;
      if fault.None? {
        mongoKeystore := WriteKeyStore(mongoKeystore, location, keyStore, writePassword);
        log := log + [Wrote(location, keyStore, readPassword, writePassword)];
      }
    }

    /** Posts one "CA changed" event. */
    method TriggerCaChangedEvent()
      modifies this`log
      ensures log == old(log) + [CaChanged]
    {
      log := log + [CaChanged];
    }

    /**
     * Generates a CA valid for `ValidityDays(daysValid)` days, writes it once to
     * the CA location (read with the secret, written with `password`), posts
     * one event and returns `get()`. A failure leaves the store and log alone.
     */
    method Create(organization: string, daysValid: Option<int>, password: Password, backendFault: Option<string>)
      returns (r: Result<Option<CA>, CaError>)
      modifies this`mongoKeystore, this`log
      ensures var generated := caKeyPair(organization, passwordSecret, ValidityDays(daysValid));
        if generated.Failure? then
          r == Failure(KeyPairError(generated.error))
          && mongoKeystore == old(mongoKeystore) && log == old(log)
        else if backendFault.Some? then
          r == Failure(KeyStoreStorageException(backendFault.value))
          && mongoKeystore == old(mongoKeystore) && log == old(log)
        else
          && mongoKeystore == WriteKeyStore(old(mongoKeystore), CaLocation, generated.value, password)
          && log == old(log) + [Wrote(CaLocation, generated.value, Some(passwordSecret), password), CaChanged]
          && r == GetCa(configuration, passwordSecret, mongoKeystore)
    {
      var generated := caKeyPair(organization, passwordSecret, ValidityDays(daysValid));
      if generated.Failure? {
        return Failure(KeyPairError(generated.error));
      }
      var fault := WriteToMongo(CaLocation, generated.value, Some(passwordSecret), password, backendFault);
      if fault.Some? {
        return Failure(KeyStoreStorageException(fault.value));
      }
      TriggerCaChangedEvent();
      r := Get();
    }

    /**
     * Folds the parts into one in-memory keystore, then writes it once to the
     * CA location re-protected with the secret and posts one event. Any failure
     * (see `UploadFailureKinds`) leaves the store and the log as they were.
     */
    method Upload(password: Option<string>, parts: seq<string>, backendFault: Option<string>)
      returns (r: Result<(), CaError>)
      modifies this`mongoKeystore, this`log
      ensures var folded := FoldParts(parts, EmptyKeyStore, password, pemCaReader, pkcs12Loader);
        && r == UploadResult(folded, backendFault)
        && (r.Failure? ==> mongoKeystore == old(mongoKeystore) && log == old(log))
        && (r.Success? ==>
              && mongoKeystore == WriteKeyStore(old(mongoKeystore), CaLocation, folded.value, Some(passwordSecret))
              && log == old(log) + [Wrote(CaLocation, folded.value, password, Some(passwordSecret)), CaChanged])
    {
      ghost var folded := FoldParts(parts, EmptyKeyStore, password, pemCaReader, pkcs12Loader);
      var keyStore := EmptyKeyStore;
      for i := 0 to |parts|
        invariant folded == FoldParts(parts[i..], keyStore, password, pemCaReader, pkcs12Loader)
      {
        assert parts[i..][0] == parts[i] && parts[i..][1..] == parts[i + 1..];
        var pem := parts[i];
        if Contains(pem, PemCertificateMarker) {
          var ca := pemCaReader(pem, password);
          if ca.Failure? {
            return Failure(CACreationException(ca.error));
          }
          if ca.value.certificates == [] {
            return Failure(IllegalArgumentException(EmptyChainMessage));
          }
          keyStore := SetKeyEntry(keyStore, CaKeyAlias, ca.value.privateKey, password, ca.value.certificates);
        } else {
          var loaded := pkcs12Loader(pem, password);
          if loaded.Failure? {
            return Failure(CACreationException(WriteFailurePrefix + loaded.error));
          }
          keyStore := loaded.value;
        }
      }
      assert parts[|parts|..] == [];
      var fault := WriteToMongo(CaLocation, keyStore, password, Some(passwordSecret), backendFault);
      if fault.Some? {
        return Failure(CACreationException(WriteFailurePrefix + fault.value));
      }
      TriggerCaChangedEvent();
      r := Success(());
    }

    /** Removes the stored CA only; posts no event. */
    method StartOver()
      modifies this`mongoKeystore
      ensures mongoKeystore == RemoveCa(old(mongoKeystore))
    {
      mongoKeystore := mongoKeystore - {CaLocation};
    }

    /** The CA keystore, with the same precedence as `Get`. */
    method LoadKeyStore() returns (r: Result<Option<KeyStore>, CaError>)
      ensures r == LoadCaKeyStore(configuration, passwordSecret, mongoKeystore, fileKeystore)
    {
      if configuration.configuredCaExists {
        if configuration.caPassword == None {
          return Failure(NullPointerException);
        }
        r := StorageFailure(ReadKeyStore(fileKeystore, configuration.caKeystoreFile, configuration.caPassword));
      } else {
        r := StorageFailure(ReadKeyStore(mongoKeystore, CaLocation, Some(passwordSecret)));
      }
    }
  }
}
