/**
 * The Aliyun Anti-DDoS Pro deployer: it uploads the certificate to the
 * certificate service and associates the uploaded certificate, by its
 * numeric id, with the website forwarding rule of one domain.
 */
module AliyunDdos {
  import opened Core
  import opened GoStrings
  import opened GoStrconv
  import IfElse

  datatype Config = Config(
    accessKeyId: string,
    accessKeySecret: string,
    resourceGroupId: string,
    region: string,
    domain: string)

  /** What the certificate-service manager is constructed with. */
  datatype SslManagerConfig = SslManagerConfig(
    accessKeyId: string,
    accessKeySecret: string,
    resourceGroupId: string,
    region: string)

  /** A constructed deployer: its configuration, its client's endpoint, its manager's configuration. */
  datatype Provider = Provider(config: Config, endpoint: string, sslManager: SslManagerConfig)

  /** The requests the deployer issues, with the fields it sets. */
  datatype Call =
    | Upload(certPem: string, privkeyPem: string)
    | AssociateWebCert(domain: string, certId: int32)

  const DefaultRegion := "cn-hangzhou"
  const InternationalRegion := "ap-southeast-1"
  const EndpointPrefix := "ddoscoo."
  const EndpointSuffix := ".aliyuncs.com"
  const DomainRequired := "config `domain` is required"
  const AssociateWebCertOp := "dcdn.AssociateWebCert"

  /** The region the client talks to: the configured one, Hangzhou when none is. */
  function ClientRegion(region: string): string
  {
    if region == "" then DefaultRegion else region
  }

  /**
   * The endpoint createSDKClient chooses for a region: whether written out
   * for the empty region or formatted, it is the service's host in the
   * client region.
   */
  function Endpoint(region: string): (r: string)
    ensures r == EndpointPrefix + ClientRegion(region) + EndpointSuffix
  {
    if region == "" then "ddoscoo.cn-hangzhou.aliyuncs.com" else EndpointPrefix + region + EndpointSuffix
  }

  /**
   * The client region can be read back from the endpoint: two regions share
   * an endpoint exactly when they name the same region once the empty region
   * is read as Hangzhou.
   */
  lemma EndpointDeterminesRegion(a: string, b: string)
    ensures var e := Endpoint(a);
      HasPrefix(e, EndpointPrefix) && HasSuffix(e, EndpointSuffix)
      && e[|EndpointPrefix|..|e| - |EndpointSuffix|] == ClientRegion(a)
    ensures Endpoint(a) == Endpoint(b) <==> ClientRegion(a) == ClientRegion(b)
  {
    var e := Endpoint(a);
    var mid := ClientRegion(a);
    assert e[..|EndpointPrefix|] == EndpointPrefix;
    assert e[|EndpointPrefix|..|e| - |EndpointSuffix|] == mid;
    assert e[|e| - |EndpointSuffix|..] == EndpointSuffix;
    if Endpoint(a) == Endpoint(b) {
      var f := Endpoint(b);
      assert f[|EndpointPrefix|..|f| - |EndpointSuffix|] == ClientRegion(b);
    }
  }

  /**
   * The region of the certificate service: Hangzhou for no region or a
   * mainland region (`cn-` prefix), Singapore for every other region.
   */
  function SslManagerRegion(region: string): (r: string)
    ensures r == DefaultRegion <==> region == "" || HasPrefix(region, "cn-")
    ensures r == InternationalRegion <==> !(region == "" || HasPrefix(region, "cn-"))
  {
    IfElse.If<string>(region == "" || HasPrefix(region, "cn-")).Then(DefaultRegion).Else(InternationalRegion)
  }

  /** NewSSLDeployerProvider; `sdkClient` and `sslManager` are the constructors' errors, if any. */
  function New(config: Option<Config>, sdkClient: Option<Error>, sslManager: Option<Error>): (r: Result<Provider>)
    ensures config.None? ==> r == Failure(Message(ConfigNil))
    ensures config.Some? && sdkClient.Some? ==> r == Failure(Wrapped(CouldNotCreateSdkClient, sdkClient.value))
    ensures config.Some? && sdkClient.None? && sslManager.Some? ==> r == Failure(Wrapped(CouldNotCreateSslManager, sslManager.value))
    ensures r.Success? <==> config.Some? && sdkClient.None? && sslManager.None?
    ensures r.Success? ==>
      var c := config.value;
      (r.value.config == c
       && r.value.endpoint == Endpoint(c.region)
       && r.value.sslManager == SslManagerConfig(c.accessKeyId, c.accessKeySecret, c.resourceGroupId, SslManagerRegion(c.region)))
  {
    if config.None? then Failure(Message(ConfigNil))
    else if sdkClient.Some? then Failure(Wrapped(CouldNotCreateSdkClient, sdkClient.value))
    else if sslManager.Some? then Failure(Wrapped(CouldNotCreateSslManager, sslManager.value))
    else
      var c := config.value;
      var manager := SslManagerConfig(c.accessKeyId, c.accessKeySecret, c.resourceGroupId, SslManagerRegion(c.region));
      Success(Provider(c, Endpoint(c.region), manager))
  }

  /**
   * The certificate id the association request carries: the upload id read
   * by strconv.Atoi, its error ignored, then truncated by `int32(...)`.
   */
  function RequestedCertId(uploadId: string): (r: int32)
    ensures Atoi(uploadId).err == Some(SyntaxError) ==> r == 0
    ensures (r - Atoi(uploadId).value) % 0x1_0000_0000 == 0
  {
    Int32(Atoi(uploadId).value)
  }

  /**
   * Deploy. `upload` is the upload manager's reply and `associate` the error
   * of the association request, if any; the context reaches only the upload.
   */
  function Deploy(p: Provider, certPem: string, privkeyPem: string, upload: Result<UploadResult>, associate: Option<Error>): (r: Run<DeployResult, Call>)
    ensures p.config.domain == "" ==> r == Run(Err(Message(DomainRequired)), [])
    ensures p.config.domain != "" && upload.Failure? ==>
      r == Run(Err(Wrapped(UploadFailed, upload.error)), [Upload(certPem, privkeyPem)])
    ensures p.config.domain != "" && upload.Success? ==>
      r.calls == [Upload(certPem, privkeyPem), AssociateWebCert(p.config.domain, RequestedCertId(upload.value.certId))]
    ensures r.outcome.Ok? <==> p.config.domain != "" && upload.Success? && associate.None?
    ensures p.config.domain != "" && upload.Success? && associate.Some? ==>
      r.outcome == Err(Wrapped(SdkRequestFailed(AssociateWebCertOp), associate.value))
  {
    if p.config.domain == "" then Run(Err(Message(DomainRequired)), [])
    else
      var uploadCall := Upload(certPem, privkeyPem);
      match upload
      case Failure(e) => Run(Err(Wrapped(UploadFailed, e)), [uploadCall])
      case Success(upres) =>
        var parsed := Atoi(upres.certId);
        var calls := [uploadCall, AssociateWebCert(p.config.domain, Int32(parsed.value))];
        if associate.Some? then Run(Err(Wrapped(SdkRequestFailed(AssociateWebCertOp), associate.value)), calls)
        else Run(Ok(DeployResult), calls)
  }

  /**
   * When the certificate service answers with the decimal form of an id
   * that fits 32 bits, the association request carries exactly that id.
   */
  lemma DeployAssociatesUploadedId(p: Provider, certPem: string, privkeyPem: string, n: int64, associate: Option<Error>)
    requires p.config.domain != ""
    requires -0x8000_0000 <= n < 0x8000_0000
    ensures Deploy(p, certPem, privkeyPem, Success(UploadResult(FormatInt(n))), associate).calls[1]
      == AssociateWebCert(p.config.domain, n)
  {
    AtoiFormatInt(n);
  }

  /**
   * An upload id of 1 to 18 ASCII characters that is not a signed decimal
   * number does not stop the deployment: the association request is sent
   * with certificate id 0.
   */
  lemma DeployAssociatesZeroForMalformedId(p: Provider, certPem: string, privkeyPem: string, uploadId: string, associate: Option<Error>)
    requires p.config.domain != ""
    requires IsAscii(uploadId) && 0 < |uploadId| < 19
    requires !HasDigitsAfterSign(Utf8(uploadId))
    ensures Deploy(p, certPem, privkeyPem, Success(UploadResult(uploadId)), associate).calls[1]
      == AssociateWebCert(p.config.domain, 0)
  {
    Utf8OfAscii(uploadId);
    assert Atoi(uploadId) == AtoiFast(Utf8(uploadId));
  }

  /**
   * An upload id that is a decimal number above the largest int64, signed
   * with `+` or unsigned, is read as the largest int64, whose low 32 bits
   * make certificate id -1.
   */
  lemma DeployAssociatesMinusOneForOverlongId(p: Provider, certPem: string, privkeyPem: string, uploadId: string, associate: Option<Error>)
    requires p.config.domain != ""
    requires HasDigitsAfterSign(Utf8(uploadId)) && Utf8(uploadId)[0] != '-' as int
    requires SignedValue(Utf8(uploadId)) > MaxInt64
    ensures Deploy(p, certPem, privkeyPem, Success(UploadResult(uploadId)), associate).calls[1]
      == AssociateWebCert(p.config.domain, -1)
  {
    AtoiOfNumeric(uploadId);
    Int32OfMaxInt64();
  }

  /**
   * An upload id that is a decimal number below the smallest int64 is read
   * as the smallest int64, whose low 32 bits make certificate id 0.
   */
  lemma DeployAssociatesZeroForUnderlongId(p: Provider, certPem: string, privkeyPem: string, uploadId: string, associate: Option<Error>)
    requires p.config.domain != ""
    requires HasDigitsAfterSign(Utf8(uploadId)) && SignedValue(Utf8(uploadId)) < MinInt64
    ensures Deploy(p, certPem, privkeyPem, Success(UploadResult(uploadId)), associate).calls[1]
      == AssociateWebCert(p.config.domain, 0)
  {
    AtoiOfNumeric(uploadId);
    Int32OfMinInt64();
  }

  /**
   * An upload id of twenty or more characters whose first twenty are digits
   * starting with 2 or more overflows before the rest is read, so it is
   * associated as certificate id -1 whatever follows.
   */
  lemma DeployAssociatesMinusOneForOverflowingPrefix(p: Provider, certPem: string, privkeyPem: string, uploadId: string, associate: Option<Error>)
    requires p.config.domain != ""
    requires IsAscii(uploadId) && |uploadId| >= 20 && uploadId[0] >= '2'
    requires forall j | 0 <= j < 20 :: '0' <= uploadId[j] <= '9'
    ensures Deploy(p, certPem, privkeyPem, Success(UploadResult(uploadId)), associate).calls[1]
      == AssociateWebCert(p.config.domain, -1)
  {
    AtoiOverflowBeforeGarbage(uploadId);
    Int32OfMaxInt64();
  }
}
