/**
 * The preflight resource `PreflightResource` with its JAX-RS shell stripped:
 * the active-node directory, the per-node provisioning store, the presence
 * of a renewal policy in the cluster configuration, and the CA service.
 */
module Preflight {
  import opened Wrappers
  import opened Keystores
  import opened Pem
  import opened CaService

  /** Provisioning states of a data node. */
  datatype State = New | Signed | Configured | Error

  /** The liveness a data node reports, kept opaque. */
  datatype DataNodeStatus = DataNodeStatus(name: string)

  /** An entry of the active-node directory. */
  datatype DataNodeDto = DataNodeDto(nodeId: string, transportAddress: string, hostname: string,
                                     shortNodeId: string, dataNodeStatus: DataNodeStatus)

  /** A row of `listDataNodes`; `status` and `errorMsg` are null for a node without a record. */
  datatype DataNode = DataNode(nodeId: string, transportAddress: string, status: Option<State>,
                               errorMsg: Option<string>, hostname: string, shortNodeId: string,
                               dataNodeStatus: DataNodeStatus)

  /** A validity period; its unit plays no part here. */
  type Duration = int

  /** A provisioning record; every field but `nodeId` may be null. */
  datatype ProvisioningConfig = ProvisioningConfig(nodeId: string, state: Option<State>, errorMsg: Option<string>,
                                                   altNames: Option<set<string>>, validFor: Option<Duration>)

  /** The body of `addParameters`. */
  datatype CertParameters = CertParameters(altNames: Option<set<string>>, validFor: Option<Duration>)

  /** The HTTP responses the resource builds itself. */
  datatype Response = Ok | Created(ca: Option<CA>) | BadRequest(message: string)

  /** What escapes `getCaCertificate`. */
  datatype ResourceError =
    | IllegalStateException(message: string)
    | RuntimeException(message: string)
    /** An exception of the CA service that `getCaCertificate` does not catch. */
    | Escaped(error: CaError)

  const KeystoreNotAvailable: string := "CA keystore not available"
  const FailedToObtainCaKey: string := "Failed to obtain CA public key"

  type ProvisioningStore = map<string, ProvisioningConfig>

  /** Every record is stored under its own node id. */
  predicate Keyed(records: ProvisioningStore) {
    forall id :: id in records ==> records[id].nodeId == id
  }

  /** `DataNodeProvisioningConfig.builder().nodeId(id).build()`. */
  function Fresh(nodeId: string): (r: ProvisioningConfig)
    ensures r.nodeId == nodeId
    ensures r.state == None && r.errorMsg == None && r.altNames == None && r.validFor == None
  {
    ProvisioningConfig(nodeId, None, None, None, None)
  }

  /** `getPreflightConfigFor(id)`. */
  function GetConfigFor(records: ProvisioningStore, nodeId: string): (r: Option<ProvisioningConfig>)
    ensures r.Some? <==> nodeId in records
    ensures r.Some? ==> r.value == records[nodeId]
  {
    if nodeId in records then Some(records[nodeId]) else None
  }

  /** `save(config)`: an upsert by the record's node id. */
  function Save(records: ProvisioningStore, config: ProvisioningConfig): (r: ProvisioningStore)
    ensures Keyed(records) ==> Keyed(r)
    ensures GetConfigFor(r, config.nodeId) == Some(config)
    ensures r.Keys == records.Keys + {config.nodeId}
    ensures forall id :: id in records && id != config.nodeId ==> r[id] == records[id]
  {
    records[config.nodeId := config]
  }

  /** The existing record of a node, or a fresh one naming it. */
  function RecordOrFresh(records: ProvisioningStore, nodeId: string): ProvisioningConfig {
    if nodeId in records then records[nodeId] else Fresh(nodeId)
  }

  /** `changeState(id, state)`: overwrites the state, creating the record if needed. */
  function ChangeState(records: ProvisioningStore, nodeId: string, state: State): (r: ProvisioningStore)
    ensures Keyed(records) ==> Keyed(r)
    ensures r.Keys == records.Keys + {nodeId}
    ensures r[nodeId].state == Some(state)
    ensures r[nodeId] == RecordOrFresh(records, nodeId).(state := Some(state))
    ensures forall id :: id in records && id != nodeId ==> r[id] == records[id]
  {
    records[nodeId := RecordOrFresh(records, nodeId).(state := Some(state))]
  }

  /** The row `listDataNodes` builds for one active node. */
  function JoinNode(n: DataNodeDto, records: ProvisioningStore): DataNode {
    var preflight := GetConfigFor(records, n.nodeId);
    DataNode(n.nodeId, n.transportAddress,
             if preflight.Some? then preflight.value.state else None,
             if preflight.Some? then preflight.value.errorMsg else None,
             n.hostname, n.shortNodeId, n.dataNodeStatus)
  }

  /** `listDataNodes`: the active nodes left-joined with their provisioning records. */
  function JoinNodes(active: seq<DataNodeDto>, records: ProvisioningStore): (r: seq<DataNode>)
    ensures |r| == |active|
    ensures forall i :: 0 <= i < |active| ==> r[i] == JoinNode(active[i], records)
  {
    seq(|active|, i requires 0 <= i < |active| => JoinNode(active[i], records))
  }

  /** The ids of a sequence of nodes. */
  function NodeIds(nodes: seq<DataNodeDto>): set<string> {
    set n | n in nodes :: n.nodeId
  }

  /**
   * One row per active node, in directory order, with the node's own data;
   * status and error come from the node's record, and are null without one.
   */
  lemma ListDataNodesRows(active: seq<DataNodeDto>, records: ProvisioningStore, i: int)
    requires 0 <= i < |active|
    ensures |JoinNodes(active, records)| == |active|
    ensures var row := JoinNodes(active, records)[i];
            && row.nodeId == active[i].nodeId
            && row.transportAddress == active[i].transportAddress
            && row.hostname == active[i].hostname
            && row.shortNodeId == active[i].shortNodeId
            && row.dataNodeStatus == active[i].dataNodeStatus
            && (active[i].nodeId in records ==>
                  row.status == records[active[i].nodeId].state && row.errorMsg == records[active[i].nodeId].errorMsg)
            && (active[i].nodeId !in records ==> row.status == None && row.errorMsg == None)
  {
  }

  /** Records of nodes that are not active do not change the listing. */
  lemma InactiveRecordsIgnored(active: seq<DataNodeDto>, records: ProvisioningStore, inactive: ProvisioningStore)
    requires forall id :: id in inactive ==> id !in NodeIds(active)
    ensures JoinNodes(active, records + inactive) == JoinNodes(active, records - inactive.Keys)
  {
    forall i | 0 <= i < |active|
      ensures JoinNode(active[i], records + inactive) == JoinNode(active[i], records - inactive.Keys)
    {
      assert active[i] in active;
      assert active[i].nodeId !in inactive;
    }
  }

  /** `generate`: `changeState(id, CONFIGURED)` for every active node, in directory order. */
  function GenerateAll(records: ProvisioningStore, nodes: seq<DataNodeDto>): ProvisioningStore
    decreases |nodes|
  {
    if nodes == [] then records
    else GenerateAll(ChangeState(records, nodes[0].nodeId, Configured), nodes[1..])
  }

  lemma NodeIdsCons(nodes: seq<DataNodeDto>)
    requires nodes != []
    ensures NodeIds(nodes) == {nodes[0].nodeId} + NodeIds(nodes[1..])
  {
    assert forall m :: m in nodes <==> m == nodes[0] || m in nodes[1..];
  }

  /**
   * After `generate` every active node has a record in state CONFIGURED whose
   * other fields are those it had (or a fresh record's), and no other record
   * is touched.
   */
  lemma {:induction false} GenerateConfiguresExactlyActive(records: ProvisioningStore, nodes: seq<DataNodeDto>)
    ensures var r := GenerateAll(records, nodes);
      && r.Keys == records.Keys + NodeIds(nodes)
      && (forall id :: id in NodeIds(nodes) ==> r[id] == RecordOrFresh(records, id).(state := Some(Configured)))
      && (forall id :: id in records && id !in NodeIds(nodes) ==> r[id] == records[id])
    decreases |nodes|
  {
    if nodes != [] {
      var n := nodes[0].nodeId;
      var rest := nodes[1..];
      var next := ChangeState(records, n, Configured);
      var r := GenerateAll(records, nodes);
      assert r == GenerateAll(next, rest);
      GenerateConfiguresExactlyActive(next, rest);
      NodeIdsCons(nodes);
      forall id | id in NodeIds(nodes)
        ensures r[id] == RecordOrFresh(records, id).(state := Some(Configured))
      {
        if id in NodeIds(rest) {
          assert r[id] == RecordOrFresh(next, id).(state := Some(Configured));
          if id != n {
            assert RecordOrFresh(next, id) == RecordOrFresh(records, id);
          }
        }
      }
    }
  }

  /** `addParameters`: the existing record (or a fresh one) with the new alt names and validity, saved. */
  function WithParameters(records: ProvisioningStore, nodeId: string, params: CertParameters): ProvisioningStore {
    var cfg := GetConfigFor(records, nodeId);
    var builder := if cfg.Some? then cfg.value else Fresh(nodeId);
    Save(records, builder.(altNames := params.altNames, validFor := params.validFor))
  }

  /**
   * The saved record carries the given alt names and validity and keeps the
   * node id, state and error of the record it replaces; a node without a
   * record gets one with no state. Other records are untouched.
   */
  lemma AddParametersRoundTrip(records: ProvisioningStore, nodeId: string, params: CertParameters)
    requires Keyed(records)
    ensures var r := WithParameters(records, nodeId, params);
      && Keyed(r)
      && r.Keys == records.Keys + {nodeId}
      && r[nodeId].nodeId == nodeId
      && r[nodeId].altNames == params.altNames
      && r[nodeId].validFor == params.validFor
      && (nodeId in records ==> r[nodeId].state == records[nodeId].state && r[nodeId].errorMsg == records[nodeId].errorMsg)
      && (nodeId !in records ==> r[nodeId].state == None && r[nodeId].errorMsg == None)
      && (forall id :: id in records && id != nodeId ==> r[id] == records[id])
  {
  }

  /** A second `addParameters` replaces the alt names and validity of the first rather than merging them. */
  lemma AddParametersReplaces(records: ProvisioningStore, nodeId: string, first: CertParameters, second: CertParameters)
    requires Keyed(records)
    ensures WithParameters(WithParameters(records, nodeId, first), nodeId, second)
         == WithParameters(records, nodeId, second)
  {
    AddParametersRoundTrip(records, nodeId, first);
  }

  /** What `getCaCertificate` makes of what `loadKeyStore` returned. */
  function CaCertificate(loaded: Result<Option<KeyStore>, CaError>): Result<string, ResourceError> {
    match loaded
    case Failure(e) => if e.NullPointerException? then Failure(Escaped(e)) else Failure(RuntimeException(FailedToObtainCaKey))
    case Success(None) => Failure(IllegalStateException(KeystoreNotAvailable))
    case Success(Some(ks)) =>
      match GetCertificate(ks, CaKeyAlias)
      case None => Failure(RuntimeException(FailedToObtainCaKey))
      case Some(c) => Success(EncodeCertificate(c.base64))
  }

  /**
   * No keystore means "CA keystore not available"; a keystore with a CA
   * certificate gives PEM text that `upload` would take for PEM again.
   */
  lemma CaCertificateCases(loaded: Result<Option<KeyStore>, CaError>)
    ensures loaded == Success(None) ==> CaCertificate(loaded) == Failure(IllegalStateException(KeystoreNotAvailable))
    ensures loaded.Failure? ==> CaCertificate(loaded).Failure?
    ensures loaded == Failure(NullPointerException) ==> CaCertificate(loaded) == Failure(Escaped(NullPointerException))
    ensures loaded.Failure? && !loaded.error.NullPointerException? ==>
              CaCertificate(loaded) == Failure(RuntimeException(FailedToObtainCaKey))
    ensures loaded.Success? && loaded.value.Some? && GetCertificate(loaded.value.value, CaKeyAlias).Some? ==>
              CaCertificate(loaded).Success? && IsPemPart(CaCertificate(loaded).value)
  {
    if loaded.Success? && loaded.value.Some? && GetCertificate(loaded.value.value, CaKeyAlias).Some? {
      EncodedCertificateIsSniffedAsPem(GetCertificate(loaded.value.value, CaKeyAlias).value.base64);
    }
  }

  /**
   * `createCA` writes with the raw `password_secret`; `get` reads with the
   * resolved secret. Without a CA file, `get` sees the new CA as generated
   * exactly when no different CA password is configured.
   */
  lemma CreateCaThenGet(configuration: CaConfiguration, passwordSecret: string, mongo: KeystoreStore, ks: KeyStore)
    requires !configuration.configuredCaExists
    ensures var after := WriteKeyStore(mongo, CaLocation, ks, Some(passwordSecret));
      && (configuration.caPassword == None || configuration.caPassword == Some(passwordSecret) ==>
            GetCa(configuration, ResolveSecret(configuration, passwordSecret), after) == Success(Some(CA(CaKeystoreId, Generated))))
      && (configuration.caPassword != None && configuration.caPassword != Some(passwordSecret) ==>
            GetCa(configuration, ResolveSecret(configuration, passwordSecret), after).Failure?)
  {
  }

  class PreflightResource {
    const caService: CaServiceImpl
    /** The raw `password_secret`, not the resolved CA secret. */
    const passwordSecret: string
    /** `nodeService.allActive().values()`, in iteration order. */
    var activeNodes: seq<DataNodeDto>
    /** The provisioning store, by node id. */
    var provisioning: ProvisioningStore
    /** Whether a `RenewalPolicy` is stored in the cluster configuration. */
    var renewalPolicyPresent: bool

    /**
     * Records are keyed by node id, and the CA service was built from the
     * same injected `password_secret`.
     */
    ghost predicate Valid()
      reads this
    {
      && Keyed(provisioning)
      && caService.passwordSecret == ResolveSecret(caService.configuration, passwordSecret)
    }

    constructor (caService: CaServiceImpl, passwordSecret: string, activeNodes: seq<DataNodeDto>,
                 provisioning: ProvisioningStore, renewalPolicyPresent: bool)
      requires Keyed(provisioning)
      requires caService.passwordSecret == ResolveSecret(caService.configuration, passwordSecret)
      ensures Valid()
      ensures this.caService == caService && this.passwordSecret == passwordSecret
      ensures this.activeNodes == activeNodes && this.provisioning == provisioning
      ensures this.renewalPolicyPresent == renewalPolicyPresent
    {
      this.caService := caService;
      this.passwordSecret := passwordSecret;
      this.activeNodes := activeNodes;
      this.provisioning := provisioning;
      this.renewalPolicyPresent := renewalPolicyPresent;
    }

    method ListDataNodes() returns (r: seq<DataNode>)
      ensures r == JoinNodes(activeNodes, provisioning)
    {
      r := JoinNodes(activeNodes, provisioning);
    }

    /** The CA certificate as PEM text, or why it cannot be had. */
    method GetCaCertificate() returns (r: Result<string, ResourceError>)
      ensures r == CaCertificate(LoadCaKeyStore(caService.configuration, caService.passwordSecret,
                                                caService.mongoKeystore, caService.fileKeystore))
    {
      var loaded := caService.LoadKeyStore();
      r := CaCertificate(loaded);
    }

    /** Creates a CA with the default validity, protected on export by `password_secret`. */
    method CreateCA(organization: string, backendFault: Option<string>) returns (r: Result<Response, CaError>)
      requires Valid()
      modifies caService`mongoKeystore, caService`log
      ensures Valid()
      ensures !caService.configuration.configuredCaExists
              && caService.caKeyPair(organization, caService.passwordSecret, DefaultValidity).Success?
              && backendFault.None? ==>
                (r == Success(Created(Some(CA(CaKeystoreId, Generated))))
                 <==> caService.configuration.caPassword == None
                      || caService.configuration.caPassword == Some(passwordSecret))
      ensures var generated := caService.caKeyPair(organization, caService.passwordSecret, DefaultValidity);
        if generated.Failure? || backendFault.Some? then
          r.Failure? && caService.mongoKeystore == old(caService.mongoKeystore) && caService.log == old(caService.log)
        else
          && caService.mongoKeystore
             == WriteKeyStore(old(caService.mongoKeystore), CaLocation, generated.value, Some(passwordSecret))
          && caService.log
             == old(caService.log) + [Wrote(CaLocation, generated.value, Some(caService.passwordSecret), Some(passwordSecret)), CaChanged]
          && r == match GetCa(caService.configuration, caService.passwordSecret, caService.mongoKeystore)
                  case Failure(e) => Failure(e)
                  case Success(ca) => Success(Created(ca))
    {
      var ca := caService.Create(organization, Some(DefaultValidity), Some(passwordSecret), backendFault);
      match ca
      case Failure(e) => r := Failure(e);
      case Success(c) => r := Success(Created(c));
    }

    /**
     * OK when the upload succeeds; BAD_REQUEST with the message of a
     * `CACreationException`; any other exception escapes.
     */
    method UploadCA(password: Option<string>, bodyParts: seq<string>, backendFault: Option<string>)
      returns (r: Result<Response, CaError>)
      modifies caService`mongoKeystore, caService`log
      ensures var folded := FoldParts(bodyParts, EmptyKeyStore, password, caService.pemCaReader, caService.pkcs12Loader);
              var outcome := UploadResult(folded, backendFault);
        && (r == Success(Ok) <==> folded.Success? && backendFault.None?)
        && (outcome.Failure? && outcome.error.CACreationException? ==> r == Success(BadRequest(outcome.error.message)))
        && (outcome.Failure? && !outcome.error.CACreationException? ==> r == Failure(outcome.error))
        && (r != Success(Ok) ==> caService.mongoKeystore == old(caService.mongoKeystore) && caService.log == old(caService.log))
        && (r == Success(Ok) ==>
              && caService.mongoKeystore
                 == WriteKeyStore(old(caService.mongoKeystore), CaLocation, folded.value, Some(caService.passwordSecret))
              && caService.log
                 == old(caService.log) + [Wrote(CaLocation, folded.value, password, Some(caService.passwordSecret)), CaChanged])
    {
      var outcome := caService.Upload(password, bodyParts, backendFault);
      match outcome
      case Success(_) => r := Success(Ok);
      case Failure(e) => r := if e.CACreationException? then Success(BadRequest(e.message)) else Failure(e);
    }

    /** Full reset: the CA, then the renewal policy, then every provisioning record. */
    method StartOver()
      requires Valid()
      modifies caService`mongoKeystore, this`renewalPolicyPresent, this`provisioning
      ensures Valid()
      ensures caService.mongoKeystore == RemoveCa(old(caService.mongoKeystore)) && CaLocation !in caService.mongoKeystore
      ensures caService.log == old(caService.log)
      ensures !renewalPolicyPresent && provisioning == map[]
    {
      caService.StartOver();
      renewalPolicyPresent := false;
      provisioning := map[];
    }

    /** Removes one node's record and nothing else. */
    method StartOverNode(nodeID: string)
      requires Valid()
      modifies this`provisioning
      ensures Valid()
      ensures provisioning == old(provisioning) - {nodeID}
      ensures renewalPolicyPresent == old(renewalPolicyPresent)
      ensures caService.mongoKeystore == old(caService.mongoKeystore) && caService.log == old(caService.log)
    {
      provisioning := provisioning - {nodeID};
    }

    /** `changeState(id, CONFIGURED)` for every active node. */
    method Generate()
      requires Valid()
      modifies this`provisioning
      ensures Valid()
      ensures provisioning == GenerateAll(old(provisioning), activeNodes)
    {
      var nodes := activeNodes;
      for i := 0 to |nodes|
        invariant Keyed(provisioning)
        invariant GenerateAll(old(provisioning), nodes) == GenerateAll(provisioning, nodes[i..])
      {
        assert nodes[i..][0] == nodes[i] && nodes[i..][1..] == nodes[i + 1..];
        provisioning := ChangeState(provisioning, nodes[i].nodeId, Configured);
      }
      assert nodes[|nodes|..] == [];
    }

    /** Read-modify-write of one node's record with new certificate parameters. */
    method AddParameters(nodeID: string, params: CertParameters)
      requires Valid()
      modifies this`provisioning
      ensures Valid()
      ensures provisioning == WithParameters(old(provisioning), nodeID, params)
    {
      var cfg := GetConfigFor(provisioning, nodeID);
      var builder := if cfg.Some? then cfg.value else Fresh(nodeID);
      builder := builder.(altNames := params.altNames, validFor := params.validFor);
      provisioning := Save(provisioning, builder);
    }
  }
}
