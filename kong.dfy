/**
 * The Kong deployer: it replaces the contents of an existing Kong
 * certificate object (optionally inside a workspace) through the Admin API,
 * with the certificate's DNS names as its SNIs.
 */
module Kong {
  import opened Core
  import opened GoStrings
  import opened GoUrl

  /** The deployer's configuration; `resourceType` is a free string in Go as well. */
  datatype Config = Config(
    serverUrl: string,
    apiToken: string,
    allowInsecureConnections: bool,
    resourceType: string,
    workspace: string,
    certificateId: string)

  /** A constructed deployer, with the base URL and TLS setting its client was given. */
  datatype Provider = Provider(config: Config, baseUrl: string, skipTlsVerify: bool)

  /** The parsed leaf certificate: only its DNS names are read. */
  datatype X509 = X509(dnsNames: seq<string>)

  /** kong.Certificate with the fields the deployer sets. */
  datatype Certificate = Certificate(id: string, cert: string, key: string, snis: seq<string>)

  /** `Certificates.Update` on the client bound to `baseUrl`. */
  datatype Call = UpdateCertificate(baseUrl: string, certificate: Certificate)

  const ResourceTypeCertificate := "certificate"
  const CertificateIdRequired := "config `certificateId` is required"
  const UpdateCertificateOp := "kong.UpdateCertificate"

  function UnsupportedResourceType(resourceType: string): string
  {
    "unsupported resource type '" + resourceType + "'"
  }

  /**
   * The base URL createSDKClient gives the client: the server URL without
   * its trailing slashes, followed, for a workspace, by one path segment
   * that is the escaped workspace name.
   */
  function BaseUrl(serverUrl: string, workspace: string): (r: string)
    ensures TrimRight(serverUrl, '/') <= r
    ensures workspace == "" <==> r == TrimRight(serverUrl, '/')
    ensures workspace != "" ==>
      var n := |TrimRight(serverUrl, '/')|;
      n < |r| && r[n] == '/' && '/' !in r[n + 1..] && Unescape(Utf8(r[n + 1..])) == Utf8(workspace)
  {
    var root := TrimRight(serverUrl, '/');
    if workspace != "" then
      var segment := PathEscape(workspace);
      PathEscapeRoundTrip(workspace);
      assert (root + "/" + segment)[|root| + 1..] == segment;
      root + "/" + segment
    else root
  }

  /** Trailing slashes on the server URL make no difference. */
  lemma BaseUrlIgnoresTrailingSlash(serverUrl: string, workspace: string)
    ensures BaseUrl(serverUrl + "/", workspace) == BaseUrl(serverUrl, workspace)
  {
    assert (serverUrl + "/")[..|serverUrl|] == serverUrl;
  }

  /** A workspace made of characters a path segment may hold appears as it is. */
  lemma BaseUrlOfPlainWorkspace(serverUrl: string, workspace: string)
    requires workspace != ""
    requires forall i | 0 <= i < |workspace| :: workspace[i] as int < 0x80 && !ShouldEscape(workspace[i] as int)
    ensures BaseUrl(serverUrl, workspace) == TrimRight(serverUrl, '/') + "/" + workspace
  {
    PathEscapeOfPlain(workspace);
  }

  /** NewSSLDeployerProvider; `sdkClient` is the error kong.NewClient returns, if any. */
  function New(config: Option<Config>, sdkClient: Option<Error>): (r: Result<Provider>)
    ensures config.None? ==> r == Failure(Message(ConfigNil))
    ensures config.Some? && sdkClient.Some? ==> r == Failure(Wrapped(CouldNotCreateSdkClient, sdkClient.value))
    ensures r.Success? <==> config.Some? && sdkClient.None?
    ensures r.Success? ==>
      (r.value.config == config.value
       && r.value.baseUrl == BaseUrl(config.value.serverUrl, config.value.workspace)
       && r.value.skipTlsVerify == config.value.allowInsecureConnections)
  {
    if config.None? then Failure(Message(ConfigNil))
    else if sdkClient.Some? then Failure(Wrapped(CouldNotCreateSdkClient, sdkClient.value))
    else
      var c := config.value;
      Success(Provider(c, BaseUrl(c.serverUrl, c.workspace), c.allowInsecureConnections))
  }

  /**
   * deployToCertificate. `parsed` is what ParseCertificateFromPEM returns for
   * the certificate and `update` the error of the update request, if any.
   * Both branches on the workspace are kept as written.
   */
  function DeployToCertificate(
    p: Provider, certPem: string, privkeyPem: string, parsed: Result<X509>, update: Option<Error>): (r: Run<(), Call>)
    ensures p.config.certificateId == "" ==> r == Run(Err(Message(CertificateIdRequired)), [])
    ensures p.config.certificateId != "" && parsed.Failure? ==> r == Run(Err(parsed.error), [])
    ensures |r.calls| == 1 <==> p.config.certificateId != "" && parsed.Success?
    ensures |r.calls| == 1 ==>
      r.calls == [UpdateCertificate(p.baseUrl, Certificate(p.config.certificateId, certPem, privkeyPem, parsed.value.dnsNames))]
    ensures r.outcome.Ok? <==> |r.calls| == 1 && update.None?
    ensures |r.calls| == 1 && update.Some? ==> r.outcome == Err(Wrapped(SdkRequestFailed(UpdateCertificateOp), update.value))
    ensures |r.calls| <= 1 && (r.outcome.Ok? || r.outcome.Err?)
  {
    if p.config.certificateId == "" then Run(Err(Message(CertificateIdRequired)), [])
    else
      match parsed
      case Failure(e) => Run(Err(e), [])
      case Success(certX509) =>
        if p.config.workspace == "" then
          var request := Certificate(p.config.certificateId, certPem, privkeyPem, certX509.dnsNames);
          var calls := [UpdateCertificate(p.baseUrl, request)];
          if update.Some? then Run(Err(Wrapped(SdkRequestFailed(UpdateCertificateOp), update.value)), calls)
          else Run(Ok(()), calls)
        else
          var request := Certificate(p.config.certificateId, certPem, privkeyPem, certX509.dnsNames);
          var calls := [UpdateCertificate(p.baseUrl, request)];
          if update.Some? then Run(Err(Wrapped(SdkRequestFailed(UpdateCertificateOp), update.value)), calls)
          else Run(Ok(()), calls)
  }

  /** Deploy: dispatches on the resource type; only certificates are supported. */
  function Deploy(
    p: Provider, certPem: string, privkeyPem: string, parsed: Result<X509>, update: Option<Error>): (r: Run<DeployResult, Call>)
    ensures p.config.resourceType != ResourceTypeCertificate ==>
      r == Run(Err(Message(UnsupportedResourceType(p.config.resourceType))), [])
    ensures p.config.resourceType == ResourceTypeCertificate ==>
      var d := DeployToCertificate(p, certPem, privkeyPem, parsed, update);
      r.calls == d.calls && (r.outcome.Ok? <==> d.outcome.Ok?) && (d.outcome.Err? ==> r.outcome == Err(d.outcome.error))
  {
    if p.config.resourceType == ResourceTypeCertificate then
      var d := DeployToCertificate(p, certPem, privkeyPem, parsed, update);
      if d.outcome.Err? then Run(Err(d.outcome.error), d.calls)
      else Run(Ok(DeployResult), d.calls)
    else Run(Err(Message(UnsupportedResourceType(p.config.resourceType))), [])
  }

  /**
   * A deployment succeeds exactly when the resource type is `certificate`,
   * the certificate id is set, the PEM parses and the one update request
   * succeeds; that request carries the id, both PEM texts and the DNS names.
   */
  lemma DeploySucceedsIff(p: Provider, certPem: string, privkeyPem: string, parsed: Result<X509>, update: Option<Error>)
    ensures var r := Deploy(p, certPem, privkeyPem, parsed, update);
      r.outcome.Ok? <==>
        p.config.resourceType == ResourceTypeCertificate && p.config.certificateId != ""
        && parsed.Success? && update.None?
    ensures var r := Deploy(p, certPem, privkeyPem, parsed, update);
      r.outcome.Ok? ==>
        r.calls == [UpdateCertificate(p.baseUrl, Certificate(p.config.certificateId, certPem, privkeyPem, parsed.value.dnsNames))]
  {
  }

  /**
   * The workspace chooses only the URL the request goes to: two deployers
   * that differ in nothing else send the same certificate.
   */
  lemma WorkspaceOnlyChangesBaseUrl(
    c: Config, workspace: string, certPem: string, privkeyPem: string, parsed: Result<X509>, update: Option<Error>)
    ensures
      var p1 := New(Some(c), None).value;
      var p2 := New(Some(c.(workspace := workspace)), None).value;
      var r1 := Deploy(p1, certPem, privkeyPem, parsed, update);
      var r2 := Deploy(p2, certPem, privkeyPem, parsed, update);
      r1.outcome == r2.outcome && |r1.calls| == |r2.calls|
      && (|r1.calls| == 1 ==> r1.calls[0].certificate == r2.calls[0].certificate
                              && r2.calls[0].baseUrl == BaseUrl(c.serverUrl, workspace))
  {
  }
}
