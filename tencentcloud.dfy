/**
 * What the Tencent Cloud deployers share: how a configured endpoint becomes
 * the endpoint of the SDK client, and which endpoint the certificate upload
 * manager is given.
 */
module TencentCloud {
  import opened Core
  import opened GoStrings
  import IfElse

  const IntlApiSuffix := "intl.tencentcloudapi.com"
  const IntlSslEndpoint := "ssl.intl.tencentcloudapi.com"

  /**
   * createSDKClient: an empty endpoint leaves the client profile's default
   * (None); any other endpoint is used as it is.
   */
  function ClientEndpoint(endpoint: string): (r: Option<string>)
    ensures r.None? <==> endpoint == ""
    ensures r.Some? ==> r.value == endpoint
  {
    if endpoint != "" then Some(endpoint) else None
  }

  /**
   * The endpoint given to the upload manager: the international SSL endpoint
   * when the configured endpoint, trimmed of white space, ends with the
   * international API domain, and the empty string (the default) otherwise.
   */
  function SslManagerEndpoint(endpoint: string): (r: string)
    ensures r == IntlSslEndpoint <==> HasSuffix(TrimSpace(endpoint), IntlApiSuffix)
    ensures r != IntlSslEndpoint ==> r == ""
  {
    IfElse.If<string>(HasSuffix(TrimSpace(endpoint), IntlApiSuffix)).Then(IntlSslEndpoint).Else("")
  }

  /** White space around the configured endpoint does not change the choice. */
  lemma SslManagerEndpointOfTrimmed(endpoint: string)
    ensures SslManagerEndpoint(TrimSpace(endpoint)) == SslManagerEndpoint(endpoint)
  {
    TrimSpaceIdempotent(endpoint);
  }

  /**
   * For a service endpoint `<host>.tencentcloudapi.com` without white space,
   * the international SSL endpoint is chosen exactly when the host ends with
   * "intl", as in "cdn.intl".
   */
  lemma SslManagerEndpointOfServiceHost(host: string)
    requires forall i | 0 <= i < |host| :: !IsSpace(host[i])
    ensures SslManagerEndpoint(host + ".tencentcloudapi.com")
      == if HasSuffix(host, "intl") then IntlSslEndpoint else ""
  {
    var e := host + ".tencentcloudapi.com";
    var tail := ".tencentcloudapi.com";
    assert forall i | 0 <= i < |tail| :: !IsSpace(tail[i]);
    assert forall i | 0 <= i < |e| :: !IsSpace(e[i]) by {
      forall i | 0 <= i < |e| ensures !IsSpace(e[i]) {
        if i >= |host| {
          assert e[i] == tail[i - |host|];
        }
      }
    }
    TrimSpaceOfUnspaced(e);
    assert IntlApiSuffix == "intl" + tail;
    if |host| >= 4 {
      assert e[|e| - |IntlApiSuffix|..] == host[|host| - 4..] + tail;
      if host[|host| - 4..] + tail == "intl" + tail {
        assert host[|host| - 4..] == (host[|host| - 4..] + tail)[..4];
      }
    } else {
      assert !HasSuffix(e, IntlApiSuffix);
    }
  }
}
