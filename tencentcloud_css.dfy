/**
 * The Tencent Cloud live-streaming (CSS) deployer: it uploads the
 * certificate and binds the uploaded certificate to one playback domain.
 */
module TencentCloudCss {
  import opened Core
  import TencentCloud

  datatype Config = Config(secretId: string, secretKey: string, endpoint: string, domain: string)

  /** A constructed deployer, with the endpoints its two clients were given. */
  datatype Provider = Provider(config: Config, clientEndpoint: Option<string>, sslManagerEndpoint: string)

  /** live.LiveCertDomainInfo: a domain and the binding status to set (1 enables HTTPS). */
  datatype DomainInfo = DomainInfo(domainName: string, status: int)

  /** The requests the deployer issues, with the fields it sets. */
  datatype Call =
    | Upload(certPem: string, privkeyPem: string)
    | ModifyLiveDomainCertBindings(domainInfos: seq<DomainInfo>, cloudCertId: string)

  const DomainRequired := "config `domain` is required"
  const ModifyLiveDomainCertBindingsOp := "live.ModifyLiveDomainCertBindings"
  const BindingEnabled := 1

  /** NewSSLDeployerProvider; `sdkClient` and `sslManager` are the constructors' errors, if any. */
  function New(config: Option<Config>, sdkClient: Option<Error>, sslManager: Option<Error>): (r: Result<Provider>)
    ensures config.None? ==> r == Failure(Message(ConfigNil))
    ensures config.Some? && sdkClient.Some? ==> r == Failure(Wrapped(CouldNotCreateSdkClient, sdkClient.value))
    ensures config.Some? && sdkClient.None? && sslManager.Some? ==> r == Failure(Wrapped(CouldNotCreateSslManager, sslManager.value))
    ensures r.Success? <==> config.Some? && sdkClient.None? && sslManager.None?
    ensures r.Success? ==>
      (r.value.config == config.value
       && r.value.clientEndpoint == TencentCloud.ClientEndpoint(config.value.endpoint)
       && r.value.sslManagerEndpoint == TencentCloud.SslManagerEndpoint(config.value.endpoint))
  {
    if config.None? then Failure(Message(ConfigNil))
    else if sdkClient.Some? then Failure(Wrapped(CouldNotCreateSdkClient, sdkClient.value))
    else if sslManager.Some? then Failure(Wrapped(CouldNotCreateSslManager, sslManager.value))
    else
      var c := config.value;
      Success(Provider(c, TencentCloud.ClientEndpoint(c.endpoint), TencentCloud.SslManagerEndpoint(c.endpoint)))
  }

  /**
   * Deploy. `upload` is the upload manager's reply and `bind` the error of
   * the binding request, if any.
   */
  function Deploy(p: Provider, certPem: string, privkeyPem: string, upload: Result<UploadResult>, bind: Option<Error>): (r: Run<DeployResult, Call>)
    ensures p.config.domain == "" ==> r == Run(Err(Message(DomainRequired)), [])
    ensures p.config.domain != "" && upload.Failure? ==>
      r == Run(Err(Wrapped(UploadFailed, upload.error)), [Upload(certPem, privkeyPem)])
    ensures p.config.domain != "" && upload.Success? ==>
      |r.calls| == 2 && r.calls[0] == Upload(certPem, privkeyPem)
      && r.calls[1].ModifyLiveDomainCertBindings?
      && r.calls[1].domainInfos == [DomainInfo(p.config.domain, BindingEnabled)]
      && r.calls[1].cloudCertId == upload.value.certId
    ensures r.outcome.Ok? <==> p.config.domain != "" && upload.Success? && bind.None?
    ensures p.config.domain != "" && upload.Success? && bind.Some? ==>
      r.outcome == Err(Wrapped(SdkRequestFailed(ModifyLiveDomainCertBindingsOp), bind.value))
  {
    if p.config.domain == "" then Run(Err(Message(DomainRequired)), [])
    else
      var uploadCall := Upload(certPem, privkeyPem);
      match upload
      case Failure(e) => Run(Err(Wrapped(UploadFailed, e)), [uploadCall])
      case Success(upres) =>
        var request := ModifyLiveDomainCertBindings([DomainInfo(p.config.domain, BindingEnabled)], upres.certId);
        if bind.Some? then Run(Err(Wrapped(SdkRequestFailed(ModifyLiveDomainCertBindingsOp), bind.value)), [uploadCall, request])
        else Run(Ok(DeployResult), [uploadCall, request])
  }

  /**
   * Every binding request the deployer sends names the configured domain,
   * and only it, and comes right after the upload whose id it carries.
   */
  lemma BindingFollowsUpload(p: Provider, certPem: string, privkeyPem: string, upload: Result<UploadResult>, bind: Option<Error>)
    ensures var r := Deploy(p, certPem, privkeyPem, upload, bind);
      forall k | 0 <= k < |r.calls| && r.calls[k].ModifyLiveDomainCertBindings? ::
        k == 1 && r.calls[0] == Upload(certPem, privkeyPem) && upload.Success?
        && r.calls[k].cloudCertId == upload.value.certId
        && forall info | info in r.calls[k].domainInfos :: info.domainName == p.config.domain
  {
  }
}
