# Preflight CA and data-node provisioning, and the OpenSearch event list, in Dafny

This project models three parts of the Graylog server:

- **`CaServiceImpl`**: the CA lifecycle service. It decides which secret protects the generated CA. It says which CA is in force (a configured CA file beats the generated CA). It creates a CA and uploads one built from PEM and PKCS#12 parts. It removes the CA ("start over") and loads the CA keystore.
- **`PreflightResource`**: the preflight REST resource without its JAX-RS shell. It lists the active data nodes joined with their provisioning records. It creates and uploads the CA, advances every active node to CONFIGURED ("generate"), and stores per-node certificate parameters. It also resets everything or a single node.
- **`OSEventList`**: the event-list search type on OpenSearch. It adds the sort, attribute filters and page window to the search source, and turns the hits into an event-list result filtered by stream.

State is kept abstract:

- The cluster keystore store and the local keystore files are maps from location to a keystore and the password protecting it.
- One ordered log of effects records the writes to the cluster keystore store and the "CA changed" events posted on the cluster event bus.
- The provisioning store is a map from node id to record.
- The renewal policy is a presence flag.
- The active-node directory is the sequence of `allActive().values()`.

Files:

- `wrappers.dfy`: `Option` (Java null and `Optional`) and `Result` (a return or a thrown exception).
- `pem.dfy`: the `-----BEGIN CERTIFICATE` marker that `upload` sniffs for (section 5 of RFC 7468), Java's `String.contains`, and the PEM text `encode` produces.
- `keystores.dfy`: keystores as alias-to-entry maps (PKCS#12, RFC 7292, kept abstract), and reading and writing a backend by location.
- `ca_service.dfy`: `CaServiceImpl` as a class, with the specification functions and lemmas its methods are proved against.
- `preflight.dfy`: `PreflightResource` as a class over the provisioning store, the node directory and the CA service.
- `os_event_list.dfy`: the search-source builder as a class, plus the pure paging, sort and result functions.

Behaviour of the code worth noting:

- `create` writes the new keystore re-protected with the caller's `password`, not with the resolved secret (`CaServiceImpl.java:101`). `createCA` passes the raw `password_secret` (`PreflightResource.java:151`). So when a CA password is configured that differs from `password_secret`, and no CA file is configured, a freshly created CA cannot be read back by `get`. The `get()` that ends `create` (`CaServiceImpl.java:104`) then throws `KeyStoreStorageException`, although the CA is already written and the event already posted. `Preflight.CreateCaThenGet` proves both sides of this, and `Preflight.PreflightResource.CreateCA` states it for the objects.
- The secret is a two-step choice: the configured CA password, else `password_secret` (`CaServiceImpl.java:83`).
- `get` returns null (here `Success(None)`) when no CA is stored.
- `loadKeyStore` with a CA file configured but no CA password throws a `NullPointerException` (`CaServiceImpl.java:150`). The model returns that as an error value.
- Nothing in these classes serialises CA-changing operations. The model is sequential.
- `readCA` declares `CACreationException`, which the `catch` in `upload` does not list. So a PEM part that fails to parse escapes with the reader's own message. A part that fails to load, or a failed write, is wrapped as `"Could not write CA: " + message`.
- A PEM part whose key comes with no certificate is stored with `KeyStore.setKeyEntry` and an empty chain (`CaServiceImpl.java:122`). The Java keystore refuses a private key without a chain with an unchecked `IllegalArgumentException`. That exception passes the `catch` of `upload` and the `catch` of `uploadCA` (`PreflightResource.java:164`). So nothing is written, no event is posted, and `uploadCA` answers with that exception rather than BAD_REQUEST. The message "Private key must be accompanied by certificate chain" is taken from the Java runtime, which is not part of this model.

Some constants are defined elsewhere in Graylog, so the values used here are assumptions:

- `CaService.DEFAULT_VALIDITY` = 365 days.
- `KeystoreMongoLocation.CA_KEYSTORE_ID` = `"certificate-authority"`.
- `CertConstants.CA_KEY_ALIAS` = `"ca"`.
- `EventList.DEFAULT_PAGE_SIZE` = 10.
- The provisioning states are NEW, SIGNED, CONFIGURED and ERROR.

`DataNodeProvisioningService` is defined elsewhere in Graylog. Its `changeState` is modelled as an upsert that creates a record when none exists. `save` is modelled as an upsert keyed by the record's node id.

## Model

| member | source | states |
|---|---|---|
| `CaService.CaServiceImpl.constructor` | graylog2-server/src/main/java/org/graylog/security/certutil/CaServiceImpl.java:73-85 | the service's secret is the configured CA password when one is set, otherwise `password_secret`; it starts with an empty effect log |
| `CaService.ResolveSecretChoice` | graylog2-server/src/main/java/org/graylog/security/certutil/CaServiceImpl.java:83 | a configured CA password is used whatever `password_secret` is; otherwise `password_secret` is used |
| `CaService.SwitchedSecretFailsToRead` | graylog2-server/src/main/java/org/graylog/security/certutil/CaServiceImpl.java:83-93 | the secret is not tried twice: a CA written under `password_secret` fails to read once a different CA password is configured |
| `CaService.CaServiceImpl.Get` | graylog2-server/src/main/java/org/graylog/security/certutil/CaServiceImpl.java:88-95 | `get` returns exactly what the specification function of file-over-store precedence gives for the current stores |
| `CaService.ConfiguredFileWins` | graylog2-server/src/main/java/org/graylog/security/certutil/CaServiceImpl.java:89-90 | with a CA file configured, `get` returns ("local CA", LOCAL) whatever the cluster store holds |
| `CaService.GetGeneratedIff` | graylog2-server/src/main/java/org/graylog/security/certutil/CaServiceImpl.java:91-94 | without a CA file, `get` returns (CA_KEYSTORE_ID, GENERATED) iff a keystore opened by the secret is stored at the CA location, and null iff nothing is stored there |
| `CaService.ValidityDefault` | graylog2-server/src/main/java/org/graylog/security/certutil/CaServiceImpl.java:99 | an absent or zero `daysValid` gives DEFAULT_VALIDITY days; any other value is used as given |
| `CaService.CaServiceImpl.Create` | graylog2-server/src/main/java/org/graylog/security/certutil/CaServiceImpl.java:98-105 | a key pair valid for the resolved number of days is written once to the CA location (read password = secret, write password = caller's password), then one CA-changed event is posted and `get()` is returned; a failed generation escapes as `CACreationException` or `KeyStoreException`, a failed write as `KeyStoreStorageException`, and neither changes store or log |
| `CaService.KeyPairError` | graylog2-server/src/main/java/org/graylog/security/certutil/CaServiceImpl.java:98-100 | a failure of `CAKeyPair.create` escapes as a `CACreationException` and one of `toKeyStore()` as a `KeyStoreException`, with its message kept |
| `CaService.CaServiceImpl.WriteToMongo` | graylog2-server/src/main/java/org/graylog/security/certutil/CaServiceImpl.java:101 | a write either fails with the backend's message and changes nothing, or stores the keystore at the location and logs the write with both passwords |
| `Keystores.WriteKeyStore` | graylog2-server/src/main/java/org/graylog/security/certutil/CaServiceImpl.java:128 | after a write, reading the location with the write password gives back the keystore with every entry re-protected by the write password; any other password fails; other locations read as before |
| `Keystores.Reprotect` | graylog2-server/src/main/java/org/graylog/security/certutil/CaServiceImpl.java:100-101 | re-protecting keeps every alias, key and chain and sets each entry's protection to the new password, as `writeKeyStore` does in going from the read password to the write password |
| `Keystores.ReprotectTwice` | graylog2-server/src/main/java/org/graylog/security/certutil/CaServiceImpl.java:128 | only the last re-protection counts, so an upload's entries end up under the secret whatever password they were folded with |
| `CaService.CaServiceImpl.TriggerCaChangedEvent` | graylog2-server/src/main/java/org/graylog/security/certutil/CaServiceImpl.java:143-145 | posts exactly one CA-changed event |
| `CaService.WrittenWithSecretIsGenerated` | graylog2-server/src/main/java/org/graylog/security/certutil/CaServiceImpl.java:88-104 | a CA written under the secret is then reported by `get` as GENERATED, and `loadKeyStore` returns the written keystore with every entry protected by the secret |
| `Pem.ContainsIffOccurs` | graylog2-server/src/main/java/org/graylog/security/certutil/CaServiceImpl.java:120 | the PEM sniff `contains` is true exactly when the marker occurs at some index of the part |
| `Keystores.SetKeyEntry` | graylog2-server/src/main/java/org/graylog/security/certutil/CaServiceImpl.java:122 | `setKeyEntry` binds the alias to the new key, protection and chain and keeps every other alias |
| `CaService.FoldParts` | graylog2-server/src/main/java/org/graylog/security/certutil/CaServiceImpl.java:113-127 | folding the upload parts into one in-memory keystore fails only with a `CACreationException` or with the unchecked refusal of a PEM key without a certificate chain |
| `CaService.FoldSucceedsIffAllAccepted` | graylog2-server/src/main/java/org/graylog/security/certutil/CaServiceImpl.java:115-127 | the fold succeeds iff every part is accepted: a PEM part read by the PEM reader with a non-empty chain, any other part loaded by the PKCS#12 loader |
| `CaService.FoldReportsFirstRejected` | graylog2-server/src/main/java/org/graylog/security/certutil/CaServiceImpl.java:115-127 | the loop stops at the first part that throws: a failed fold reports that part's exception, which is the reader's message for an unreadable PEM part, the empty-chain refusal for a PEM key without certificates, and "Could not write CA: " + the loader's message otherwise |
| `CaService.FoldAppend` | graylog2-server/src/main/java/org/graylog/security/certutil/CaServiceImpl.java:115-127 | folding `a + b` is folding `a`, then `b` from where `a` left off, and a failure in `a` stops the fold |
| `CaService.LaterPemPartReplaces` | graylog2-server/src/main/java/org/graylog/security/certutil/CaServiceImpl.java:120-122 | a PEM part is stored under the one CA alias with the upload password, so a later PEM part replaces an earlier one |
| `CaService.KeystorePartReplacesAll` | graylog2-server/src/main/java/org/graylog/security/certutil/CaServiceImpl.java:123-126 | a part without the marker is loaded as a whole keystore and replaces everything folded before it |
| `CaService.UploadResult` | graylog2-server/src/main/java/org/graylog/security/certutil/CaServiceImpl.java:128-134 | `upload` succeeds iff every part folded and the write succeeded; a failed fold's exception is passed on unchanged, and a failed write becomes `CACreationException("Could not write CA: " + message)` |
| `CaService.UploadFailureKinds` | graylog2-server/src/main/java/org/graylog/security/certutil/CaServiceImpl.java:120-134 | every failure of `upload` is a `CACreationException`, except the empty-chain refusal, which arises only from a PEM part the reader accepted with no certificates |
| `CaService.CaServiceImpl.Upload` | graylog2-server/src/main/java/org/graylog/security/certutil/CaServiceImpl.java:108-135 | all or nothing: on failure the store and the log are unchanged; on success the folded keystore is written once to the CA location (read with the upload password, re-protected with the secret), then one event is posted |
| `CaService.UploadedCaIsReadable` | graylog2-server/src/main/java/org/graylog/security/certutil/CaServiceImpl.java:128 | the secret an upload re-protects with is the one `get` (line 92) and `loadKeyStore` (line 152) read with, so the uploaded CA is GENERATED and loads as the folded keystore, its CA entry keeping key and chain but now protected by the secret instead of the upload password |
| `CaService.CaServiceImpl.StartOver` | graylog2-server/src/main/java/org/graylog/security/certutil/CaServiceImpl.java:137-140 | only the CA location is removed from the cluster store, and no event is posted |
| `CaService.RemoveCa` | graylog2-server/src/main/java/org/graylog/security/certutil/CaServiceImpl.java:139 | after removal the CA location is absent and every other location keeps its keystore |
| `CaService.StartOverClearsCa` | graylog2-server/src/main/java/org/graylog/security/certutil/CaServiceImpl.java:137-140 | after `startOver`, `get` finds no CA (absent a CA file), and a second `startOver` changes nothing |
| `CaService.CaServiceImpl.LoadKeyStore` | graylog2-server/src/main/java/org/graylog/security/certutil/CaServiceImpl.java:147-154 | the CA keystore with the same file-over-store precedence as `get`; the file is read with the configured CA password, whose absence is a null dereference |
| `CaService.LoadFromConfiguredFile` | graylog2-server/src/main/java/org/graylog/security/certutil/CaServiceImpl.java:149-150 | with a CA file configured, `loadKeyStore` gives the same result whatever the cluster store holds; it reads the file with the CA password, and throws a null dereference when no CA password is set |
| `Keystores.ReadKeyStore` | graylog2-server/src/main/java/org/graylog/security/certutil/CaServiceImpl.java:92 | reading a location gives null exactly when nothing is stored there, fails exactly when the password does not open what is stored, and otherwise gives the stored keystore |
| `CaService.GetAgreesWithLoad` | graylog2-server/src/main/java/org/graylog/security/certutil/CaServiceImpl.java:147-154 | without a CA file, `get` and `loadKeyStore` agree on failure and on whether a CA exists |
| `Preflight.PreflightResource.constructor` | graylog2-server/src/main/java/org/graylog2/bootstrap/preflight/web/resources/PreflightResource.java:76-87 | the resource keeps the injected CA service, node directory, provisioning store and raw `password_secret`, which must be the one the CA service resolved its secret from; records are keyed by node id |
| `Preflight.JoinNodes` | graylog2-server/src/main/java/org/graylog2/bootstrap/preflight/web/resources/PreflightResource.java:95-108 | the listing has one row per active node, in directory order, each the node's row of the left join |
| `Preflight.ListDataNodesRows` | graylog2-server/src/main/java/org/graylog2/bootstrap/preflight/web/resources/PreflightResource.java:99-107 | each row carries its node's id, address, host names and status; status and errorMsg come from the node's record, and are null when it has none |
| `Preflight.InactiveRecordsIgnored` | graylog2-server/src/main/java/org/graylog2/bootstrap/preflight/web/resources/PreflightResource.java:96-107 | provisioning records of nodes that are not active do not change the listing |
| `Preflight.PreflightResource.ListDataNodes` | graylog2-server/src/main/java/org/graylog2/bootstrap/preflight/web/resources/PreflightResource.java:95-108 | the listing is the left join of the current directory and the current provisioning store |
| `Preflight.CaCertificateCases` | graylog2-server/src/main/java/org/graylog2/bootstrap/preflight/web/resources/PreflightResource.java:121-135 | no keystore gives "CA keystore not available"; the null dereference of `loadKeyStore` escapes unchanged; every other failed load gives "Failed to obtain CA public key"; a keystore holding the CA certificate gives PEM text that `upload` would sniff as PEM |
| `Preflight.PreflightResource.GetCaCertificate` | graylog2-server/src/main/java/org/graylog2/bootstrap/preflight/web/resources/PreflightResource.java:121-135 | the certificate text, or the error, is what the current `loadKeyStore` result gives |
| `Keystores.GetCertificate` | graylog2-server/src/main/java/org/graylog2/bootstrap/preflight/web/resources/PreflightResource.java:126 | the certificate of an alias is the first of its chain, and null exactly when the alias is absent or has no chain |
| `Pem.EncodedCertificateIsSniffedAsPem` | graylog2-server/src/main/java/org/graylog2/bootstrap/preflight/web/resources/PreflightResource.java:137-143 | whatever its body, an encoded certificate contains the marker `upload` sniffs for |
| `Pem.EncodeCertificate` | graylog2-server/src/main/java/org/graylog2/bootstrap/preflight/web/resources/PreflightResource.java:137-143 | the PEM text starts with the certificate's pre-encapsulation boundary |
| `Preflight.PreflightResource.CreateCA` | graylog2-server/src/main/java/org/graylog2/bootstrap/preflight/web/resources/PreflightResource.java:149-153 | creates with DEFAULT_VALIDITY and `password_secret` as the write password; on success the CA is written once, one event is posted, and the response carries `get()`; if generation or the write fails, nothing changes; if the final `get()` fails, the CA stays written, the event stays posted, and `createCA` throws `KeyStoreStorageException`; without a CA file, a successful create reports the GENERATED CA iff no CA password is configured or it equals `password_secret` |
| `Preflight.CreateCaThenGet` | graylog2-server/src/main/java/org/graylog2/bootstrap/preflight/web/resources/PreflightResource.java:151 | after `createCA`, `get` sees GENERATED iff no CA password is configured or it equals `password_secret`; otherwise the read fails |
| `Preflight.PreflightResource.UploadCA` | graylog2-server/src/main/java/org/graylog2/bootstrap/preflight/web/resources/PreflightResource.java:160-167 | OK iff the upload succeeds, and then the folded keystore is stored at the CA location under the service's secret and the log gains the write followed by one CA-changed event; a `CACreationException` becomes BAD_REQUEST carrying its message, and any other exception escapes; on failure the CA store and log are unchanged |
| `Preflight.PreflightResource.StartOver` | graylog2-server/src/main/java/org/graylog2/bootstrap/preflight/web/resources/PreflightResource.java:173-177 | removes the CA, then the renewal policy, then every provisioning record; afterwards the CA location is absent, no policy is stored, the store is empty and no event was posted |
| `Preflight.PreflightResource.StartOverNode` | graylog2-server/src/main/java/org/graylog2/bootstrap/preflight/web/resources/PreflightResource.java:183-186 | deletes only that node's record; the CA, the renewal policy and the other records are unchanged |
| `Preflight.ChangeState` | graylog2-server/src/main/java/org/graylog2/bootstrap/preflight/web/resources/PreflightResource.java:194 | the node's record ends up in the given state with its other fields (errorMsg, altNames, validFor) kept, or is created holding only its id and that state; every other record is unchanged and records stay keyed by node id |
| `Preflight.GenerateConfiguresExactlyActive` | graylog2-server/src/main/java/org/graylog2/bootstrap/preflight/web/resources/PreflightResource.java:192-195 | after `generate` every active node has a record in CONFIGURED with its other fields kept; no other record is added or changed |
| `Preflight.PreflightResource.Generate` | graylog2-server/src/main/java/org/graylog2/bootstrap/preflight/web/resources/PreflightResource.java:192-195 | the loop of `changeState(id, CONFIGURED)` over the active nodes yields the specified store and keeps records keyed |
| `Preflight.Save` | graylog2-server/src/main/java/org/graylog2/bootstrap/preflight/web/resources/PreflightResource.java:207 | after `save`, the record is found under its node id, no other id is added and every other record is unchanged; records stay keyed |
| `Preflight.GetConfigFor` | graylog2-server/src/main/java/org/graylog2/bootstrap/preflight/web/resources/PreflightResource.java:204 | the lookup finds a record exactly when one is stored under the node id, and then it is that record |
| `Preflight.Fresh` | graylog2-server/src/main/java/org/graylog2/bootstrap/preflight/web/resources/PreflightResource.java:205 | a node without a record starts from a builder holding its node id and null for state, errorMsg, altNames and validFor |
| `Preflight.AddParametersRoundTrip` | graylog2-server/src/main/java/org/graylog2/bootstrap/preflight/web/resources/PreflightResource.java:202-208 | the saved record has the given altNames and validFor and keeps its node id, state and error; a node without a record gets one with only its id set; other records are untouched |
| `Preflight.AddParametersReplaces` | graylog2-server/src/main/java/org/graylog2/bootstrap/preflight/web/resources/PreflightResource.java:204-207 | a second `addParameters` replaces the first one's altNames and validFor rather than merging them |
| `Preflight.PreflightResource.AddParameters` | graylog2-server/src/main/java/org/graylog2/bootstrap/preflight/web/resources/PreflightResource.java:202-209 | the read-modify-write saves exactly the specified record, and records stay keyed |
| `OSEventList.ToSortOrderBijective` | graylog-storage-opensearch2/src/main/java/org/graylog/storage/opensearch2/views/searchtypes/OSEventList.java:63-68 | ASC maps to ASC and DESC to DESC, a bijection between the two directions and the two sort orders |
| `OSEventList.FiltersAddedOnlyWhen` | graylog-storage-opensearch2/src/main/java/org/graylog/storage/opensearch2/views/searchtypes/OSEventList.java:48-54 | filters are added only when there are attributes and the query is a bool query; the flattened query strings are appended after the existing filters |
| `OSEventList.FilterQueriesAppend` | graylog-storage-opensearch2/src/main/java/org/graylog/storage/opensearch2/views/searchtypes/OSEventList.java:49-51 | flattening keeps attribute order: it distributes over concatenation |
| `OSEventList.FilterQueriesCount` | graylog-storage-opensearch2/src/main/java/org/graylog/storage/opensearch2/views/searchtypes/OSEventList.java:49-53 | one filter is added per query string of every attribute |
| `OSEventList.Wrap32` | graylog-storage-opensearch2/src/main/java/org/graylog/storage/opensearch2/views/searchtypes/OSEventList.java:59 | Java `int` arithmetic: the result is congruent to the exact value modulo 2^32, and equal to it when it fits |
| `OSEventList.PagedWindow` | graylog-storage-opensearch2/src/main/java/org/graylog/storage/opensearch2/views/searchtypes/OSEventList.java:56-59 | with a page, the size is `perPage` or DEFAULT_PAGE_SIZE and the offset is `(page - 1) * size` while that fits an `int` |
| `OSEventList.UnpagedWindow` | graylog-storage-opensearch2/src/main/java/org/graylog/storage/opensearch2/views/searchtypes/OSEventList.java:60 | without a page, the size is 10000 and no offset is set |
| `OSEventList.FirstPageStartsAtZero` | graylog-storage-opensearch2/src/main/java/org/graylog/storage/opensearch2/views/searchtypes/OSEventList.java:59 | page 1 starts at offset 0 |
| `OSEventList.ConsecutivePages` | graylog-storage-opensearch2/src/main/java/org/graylog/storage/opensearch2/views/searchtypes/OSEventList.java:56-59 | consecutive pages are exactly one page size apart while the offsets fit an `int` |
| `OSEventList.PageZeroOffsetIsNegative` | graylog-storage-opensearch2/src/main/java/org/graylog/storage/opensearch2/views/searchtypes/OSEventList.java:59 | for page 0 the offset computed for `from` is `-perPage`, since the page number is not checked here |
| `OSEventList.LargePageOffsetWraps` | graylog-storage-opensearch2/src/main/java/org/graylog/storage/opensearch2/views/searchtypes/OSEventList.java:59 | the offset computed for `from` wraps around in `int`: for page 2^30 + 1 of size 2 it is -2^31 |
| `OSEventList.DoGenerateQueryPart` | graylog-storage-opensearch2/src/main/java/org/graylog/storage/opensearch2/views/searchtypes/OSEventList.java:42-61 | appends one sort, adds the filters as specified, sets the page size, and sets the offset only when a page is given |
| `OSEventList.EffectiveStreamsChoice` | graylog-storage-opensearch2/src/main/java/org/graylog/storage/opensearch2/views/searchtypes/OSEventList.java:80-82 | the effective streams are the search type's streams when it names any, otherwise the query's used stream ids |
| `OSEventList.FilterByStreams` | graylog-storage-opensearch2/src/main/java/org/graylog/storage/opensearch2/views/searchtypes/OSEventList.java:83-86 | an event is kept iff it is a hit whose streams all lie within the effective streams; no more events come out than hits go in |
| `OSEventList.FilterByStreamsAppend` | graylog-storage-opensearch2/src/main/java/org/graylog/storage/opensearch2/views/searchtypes/OSEventList.java:83-86 | the filter keeps hit order: it distributes over concatenation |
| `OSEventList.FilterByStreamsKeepsAll` | graylog-storage-opensearch2/src/main/java/org/graylog/storage/opensearch2/views/searchtypes/OSEventList.java:83-86 | when every hit lies within the effective streams, the events are exactly the hits |
| `OSEventList.DoExtractResult` | graylog-storage-opensearch2/src/main/java/org/graylog/storage/opensearch2/views/searchtypes/OSEventList.java:78-93 | the result's id and name are the search type's; its total is the raw total-hits count, unaffected by the filter; its events are the hits within the effective streams, in hit order and with repeats kept (the stream filter, whose order is pinned by `FilterByStreamsAppend`) |

## Left out

- `AuthServicesResource` is a thin REST wrapper that is not part of this model.
- Cryptography is supplied from outside the model as injected functions that may fail: key generation (`CAKeyPair.create(...).toKeyStore()`), PEM parsing (`PemCaReader.readCA`) and PKCS#12 loading (`KeyStore.load`). Fresh randomness and the certificate's validity window are therefore not modelled.
- The base64 body of a PEM certificate and its line wrapping are kept opaque: a certificate carries its base64 text.
- The internals of `KeystoreMongoStorage`, `KeystoreFileStorage` and `CertificatesService` are not modelled; the stores are maps. `certificatesService.removeCert` is assumed to remove the entry from the same map that `KeystoreMongoStorage` reads. A read with the wrong password is modelled as a storage failure. A failing write is an explicit per-call parameter, `backendFault`, because it is I/O.
- Failures of `KeyStore.getInstance(PKCS12, "BC")` and `load(null, null)` are not modelled; they depend on the installed provider.
- Reading multipart bodies (`readAllBytes` and UTF-8 decoding) is not modelled. Parts arrive as decoded text, so an `IOException` while reading a part is not modelled.
- The cluster event bus is modelled only as the ordered log of posted events. Delivery is not modelled.
- `Collectors.toMap` over `streamAll()` is not modelled separately. The store is a map in which every record sits under its own node id, so the duplicate-key failure cannot happen.
- `PreflightResource.get` only delegates, and is covered by `CaService.CaServiceImpl.Get`.
- JAX-RS routing, permission checks, audit annotations, tracing spans and logging are not modelled.
- Concurrent requests to the singleton service are not modelled; every operation runs alone.
- The OpenSearch builder and response classes are reduced to records. Query strings stay text. Hits arrive already parsed by `EventSummary.parse`; `getSourceAsMap` is not modelled.
- `EventList.sortWithDefault()` and `Attribute.toQueryStrings()` are taken as given values.
- `Preflight.PreflightResource.StartOver`: the contract gives the final state only. The order of the three removals (CA, renewal policy, records) is not observable in the sequential model. A failure of `remove` or `deleteAll` after the CA is removed is not modelled.
- `OSEventList.DoGenerateQueryPart`: the argument checks of OpenSearch's `SearchSourceBuilder.from` and `size` are library code not modelled here. The model stores a computed negative offset, or a negative size, where that library would reject it.
- `OSEventList.PageZeroOffsetIsNegative`: states the offset computed for `from`; whether the search builder then accepts it is not modelled.
- `OSEventList.LargePageOffsetWraps`: states the offset computed for `from`; whether the search builder then accepts it is not modelled.
- `Preflight.PreflightResource.CreateCA`: if generation or the write fails, the contract says only that an exception escapes and nothing changed; which exception it is, is stated by `CaService.CaServiceImpl.Create`. If the final `get()` fails, the CA stays written, the event stays posted, and `createCA` throws `KeyStoreStorageException`.
- `Keystores.WriteKeyStore`: `KeystoreMongoStorage` is defined elsewhere in Graylog. Whether it checks the read password against the entries' current protection is not modelled; a write re-protects every entry with the write password whatever their protection was.
