/**
 * The workflow-facing deployer: from a deploy node of a workflow it looks up
 * the node's access record, has a provider deployer built for the node's
 * provider type, and wraps it in a proxy that deploys the certificate and
 * private key it was given.
 */
module Deployer {
  import opened Core
  import Domain

  /** The type of a workflow node: the deploy type, or any other. */
  datatype NodeType = DeployNode | OtherNode(name: string)

  /**
   * A workflow node as this code reads it: its type and the values
   * `GetConfigString("providerAccessId")`, `GetConfigString("provider")` and
   * `GetConfigMap("providerConfig")` return for it.
   */
  datatype WorkflowNode = WorkflowNode(
    nodeType: NodeType,
    providerAccessId: string,
    provider: string,
    providerConfig: map<string, string>)

  /** The certificate and private key to deploy, both PEM text. */
  datatype CertData = CertData(certificate: string, privateKey: string)

  /** An access record: the credentials configuration of a provider account. */
  datatype Access = Access(config: string)

  /** Stands for the provider deployer instance createDeployer builds. */
  datatype InnerDeployer = InnerDeployer(handle: nat)

  /** The collaborators the constructor consults, in order. */
  datatype FacadeCall =
    | GetAccessById(id: string)
    | CreateDeployer(provider: Domain.DeploymentProviderType, accessConfig: string, deployConfig: map<string, string>)

  /** What a proxy holds. */
  datatype ProxyState = ProxyState(deployer: InnerDeployer, deployCertificate: string, deployPrivateKey: string)

  const NodeTypeIsNotDeploy := "node type is not deploy"

  function AccessLookupFailed(accessId: string): string
  {
    "failed to get access #" + accessId + " record"
  }

  /**
   * What NewWithDeployNode does, given the replies of the access repository
   * and of createDeployer: a node of another type is rejected before the
   * repository is consulted, a lookup error names the access id and wraps
   * the cause, a createDeployer error comes back as it is, and otherwise the
   * proxy holds the built deployer with exactly the given certificate and key.
   */
  function NewOutcome(
    node: WorkflowNode, certdata: CertData,
    getAccess: string -> Result<Access>,
    createDeployer: (Domain.DeploymentProviderType, string, map<string, string>) -> Result<InnerDeployer>): (r: Run<ProxyState, FacadeCall>)
    ensures node.nodeType != DeployNode ==> r == Run(Err(Message(NodeTypeIsNotDeploy)), [])
    ensures node.nodeType == DeployNode ==> 1 <= |r.calls| <= 2 && r.calls[0] == GetAccessById(node.providerAccessId)
    ensures node.nodeType == DeployNode && getAccess(node.providerAccessId).Failure? ==>
      r == Run(Err(Wrapped(AccessLookupFailed(node.providerAccessId), getAccess(node.providerAccessId).error)),
               [GetAccessById(node.providerAccessId)])
    ensures |r.calls| == 2 <==> node.nodeType == DeployNode && getAccess(node.providerAccessId).Success?
    ensures |r.calls| == 2 ==>
      r.calls[1] == CreateDeployer(node.provider, getAccess(node.providerAccessId).value.config, node.providerConfig)
    ensures |r.calls| == 2 && createDeployer(node.provider, getAccess(node.providerAccessId).value.config, node.providerConfig).Failure? ==>
      r.outcome == Err(createDeployer(node.provider, getAccess(node.providerAccessId).value.config, node.providerConfig).error)
    ensures r.outcome.Ok? <==>
      |r.calls| == 2 && createDeployer(node.provider, getAccess(node.providerAccessId).value.config, node.providerConfig).Success?
    ensures r.outcome.Ok? ==>
      r.outcome.value == ProxyState(
        createDeployer(node.provider, getAccess(node.providerAccessId).value.config, node.providerConfig).value,
        certdata.certificate, certdata.privateKey)
    ensures r.outcome.Ok? || r.outcome.Err?
  {
    if node.nodeType != DeployNode then Run(Err(Message(NodeTypeIsNotDeploy)), [])
    else
      var accessId := node.providerAccessId;
      var lookup := GetAccessById(accessId);
      match getAccess(accessId)
      case Failure(e) => Run(Err(Wrapped(AccessLookupFailed(accessId), e)), [lookup])
      case Success(access) =>
        var create := CreateDeployer(node.provider, access.config, node.providerConfig);
        match createDeployer(node.provider, access.config, node.providerConfig)
        case Failure(e) => Run(Err(e), [lookup, create])
        case Success(deployer) =>
          Run(Ok(ProxyState(deployer, certdata.certificate, certdata.privateKey)), [lookup, create])
  }

  /** The error a deployer returns, dropping its result. */
  function ErrorOf(r: Result<DeployResult>): (e: Option<Error>)
    ensures e.None? <==> r.Success?
    ensures e.Some? ==> e.value == r.error
  {
    if r.Failure? then Some(r.error) else None
  }

  /** proxyDeployer: the built deployer and the certificate and key it deploys. */
  class ProxyDeployer {
    var deployer: InnerDeployer
    var deployCertificate: string
    var deployPrivateKey: string

    function State(): (s: ProxyState)
      reads this
      ensures s.deployer == deployer
      ensures s.deployCertificate == deployCertificate && s.deployPrivateKey == deployPrivateKey
    {
      ProxyState(deployer, deployCertificate, deployPrivateKey)
    }

    constructor (state: ProxyState)
      ensures State() == state
    {
      deployer := state.deployer;
      deployCertificate := state.deployCertificate;
      deployPrivateKey := state.deployPrivateKey;
    }

    /**
     * Deploy: hands the context and the stored certificate and key to the
     * built deployer, and returns its error alone.
     */
    method Deploy(ctx: Cancellation, deploy: (Cancellation, InnerDeployer, string, string) -> Result<DeployResult>)
      returns (err: Option<Error>)
      ensures err.None? <==> deploy(ctx, deployer, deployCertificate, deployPrivateKey).Success?
      ensures err.Some? ==> err.value == deploy(ctx, deployer, deployCertificate, deployPrivateKey).error
    {
      var result := deploy(ctx, deployer, deployCertificate, deployPrivateKey);
      err := ErrorOf(result);
    }
  }

  /** NewWithDeployNode: builds the proxy NewOutcome describes. */
  method NewWithDeployNode(
    node: WorkflowNode, certdata: CertData,
    getAccess: string -> Result<Access>,
    createDeployer: (Domain.DeploymentProviderType, string, map<string, string>) -> Result<InnerDeployer>)
    returns (r: Result<ProxyDeployer>, calls: seq<FacadeCall>)
    ensures var spec := NewOutcome(node, certdata, getAccess, createDeployer);
      calls == spec.calls
      && (r.Failure? <==> spec.outcome.Err?)
      && (r.Failure? ==> spec.outcome.error == r.error)
      && (r.Success? ==> fresh(r.value) && spec.outcome == Ok(r.value.State()))
  {
    if node.nodeType != DeployNode {
      return Failure(Message(NodeTypeIsNotDeploy)), [];
    }
    var accessId := node.providerAccessId;
    calls := [GetAccessById(accessId)];
    var access := getAccess(accessId);
    if access.Failure? {
      return Failure(Wrapped(AccessLookupFailed(accessId), access.error)), calls;
    }
    var deployProvider := node.provider;
    var deployConfig := node.providerConfig;
    calls := calls + [CreateDeployer(deployProvider, access.value.config, deployConfig)];
    var created := createDeployer(deployProvider, access.value.config, deployConfig);
    if created.Failure? {
      return Failure(created.error), calls;
    }
    var proxy := new ProxyDeployer(ProxyState(created.value, certdata.certificate, certdata.privateKey));
    r := Success(proxy);
  }

  /**
   * End to end: deploying through a proxy built from a node hands the inner
   * deployer exactly the certificate and key the node was built with.
   */
  method NewThenDeploy(
    node: WorkflowNode, certdata: CertData, ctx: Cancellation,
    getAccess: string -> Result<Access>,
    createDeployer: (Domain.DeploymentProviderType, string, map<string, string>) -> Result<InnerDeployer>,
    deploy: (Cancellation, InnerDeployer, string, string) -> Result<DeployResult>)
    returns (err: Option<Error>)
    ensures var spec := NewOutcome(node, certdata, getAccess, createDeployer);
      (spec.outcome.Err? ==> err == Some(spec.outcome.error))
      && (spec.outcome.Ok? ==>
            err == ErrorOf(deploy(ctx, spec.outcome.value.deployer, certdata.certificate, certdata.privateKey)))
  {
    var r, calls := NewWithDeployNode(node, certdata, getAccess, createDeployer);
    if r.Failure? {
      return Some(r.error);
    }
    err := r.value.Deploy(ctx, deploy);
  }
}
