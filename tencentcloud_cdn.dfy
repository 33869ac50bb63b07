/**
 * The Tencent Cloud CDN deployer: it uploads the certificate, finds the
 * accelerated domains to bind it to (for a wildcard domain, every domain the
 * platform lists for the uploaded certificate), and rewrites the HTTPS
 * settings of each domain not already serving it, collecting the errors.
 */
module TencentCloudCdn {
  import opened Core
  import opened GoStrings
  import TencentCloud

  datatype Config = Config(secretId: string, secretKey: string, endpoint: string, domain: string)

  /** A constructed deployer, with the endpoints its two clients were given. */
  datatype Provider = Provider(config: Config, clientEndpoint: Option<string>, sslManagerEndpoint: string)

  /** cdn.ServerCert: the certificate a domain serves; the remaining fields stand in `certName`. */
  datatype ServerCert = ServerCert(certId: Option<string>, certName: Option<string>)

  /**
   * cdn.Https: the HTTPS settings of a domain. `settings` stands for the
   * fields the deployer never touches (HTTP/2, OCSP stapling, HSTS, TLS
   * versions, client verification), which travel back unchanged.
   */
  datatype Https = Https(
    httpsSwitch: Option<string>,
    sslStatus: Option<string>,
    certInfo: Option<ServerCert>,
    settings: seq<string>)

  /** One entry of a domain configuration listing. */
  datatype DomainConfig = DomainConfig(https: Option<Https>)

  /** The requests the deployer issues, with the fields it sets. */
  datatype Call =
    | Upload(certPem: string, privkeyPem: string)
    | DescribeCertDomains(certId: string, product: string)
    | DescribeDomainsConfig(filterName: string, filterValues: seq<string>, offset: int, limit: int)
    | UpdateDomainConfig(domain: string, https: Https)

  const DomainRequired := "config `domain` is required"
  const DescribeCertDomainsOp := "cdn.DescribeCertDomains"
  const DescribeDomainsConfigOp := "cdn.DescribeDomainsConfig"
  const UpdateDomainConfigOp := "cdn.UpdateDomainConfig"

  /** NewSSLDeployerProvider */
  function New(config: Option<Config>, sdkClient: Option<Error>, sslManager: Option<Error>): (r: Result<Provider>)
    ensures config.None? ==> r == Failure(Message(ConfigNil))
    ensures config.Some? && sdkClient.Some? ==> r == Failure(Wrapped(CouldNotCreateSdkClient, sdkClient.value))
    ensures config.Some? && sdkClient.None? && sslManager.Some? ==> r == Failure(Wrapped(CouldNotCreateSslManager, sslManager.value))
    ensures r.Success? <==> config.Some? && sdkClient.None? && sslManager.None?
    ensures r.Success? ==>
      (r.value.config == config.value
       && r.value.clientEndpoint == TencentCloud.ClientEndpoint(config.value.endpoint)
       && r.value.sslManagerEndpoint == TencentCloud.SslManagerEndpoint(config.value.endpoint))
  {
    if config.None? then Failure(Message(ConfigNil))
    else if sdkClient.Some? then Failure(Wrapped(CouldNotCreateSdkClient, sdkClient.value))
    else if sslManager.Some? then Failure(Wrapped(CouldNotCreateSslManager, sslManager.value))
    else
      var c := config.value;
      Success(Provider(c, TencentCloud.ClientEndpoint(c.endpoint), TencentCloud.SslManagerEndpoint(c.endpoint)))
  }

  // ---------------------------------------------------------------------
  // getDomainsByCertId

  /** The strings behind a list of pointers, or None when one of them is nil. */
  function Derefs(ps: seq<Option<string>>): (r: Option<seq<string>>)
    ensures r.None? <==> exists k | 0 <= k < |ps| :: ps[k].None?
    ensures r.Some? ==> |r.value| == |ps| && forall k | 0 <= k < |ps| :: ps[k] == Some(r.value[k])
  {
    if |ps| == 0 then Some([])
    else
      var init := Derefs(ps[..|ps| - 1]);
      var last := ps[|ps| - 1];
      if init.None? then
        var k :| 0 <= k < |ps| - 1 && ps[..|ps| - 1][k].None?;
        assert ps[k].None?;
        None
      else if last.None? then None
      else Some(init.value + [last.value])
  }

  /**
   * What getDomainsByCertId returns for the reply to its one request: the
   * wrapped SDK error, no domains for a nil list, a panic on a nil entry,
   * and otherwise every listed domain in order.
   */
  function DomainsByCertId(reply: Result<Option<seq<Option<string>>>>): (r: Outcome<seq<string>>)
    ensures reply.Failure? ==> r == Err(Wrapped(SdkRequestFailed(DescribeCertDomainsOp), reply.error))
    ensures reply == Success(None) ==> r == Ok([])
    ensures r.Panicked? <==> reply.Success? && reply.value.Some? && exists k | 0 <= k < |reply.value.value| :: reply.value.value[k].None?
    ensures r.Ok? && reply.Success? && reply.value.Some? ==>
      |r.value| == |reply.value.value| && forall k | 0 <= k < |r.value| :: reply.value.value[k] == Some(r.value[k])
    ensures !r.OutOfFuel?
  {
    match reply
    case Failure(e) => Err(Wrapped(SdkRequestFailed(DescribeCertDomainsOp), e))
    case Success(list) =>
      if list.None? then Ok([])
      else
        var ds := Derefs(list.value);
        if ds.None? then Panicked else Ok(ds.value)
  }

  /** getDomainsByCertId: the loop that dereferences the listed domains. */
  method GetDomainsByCertId(certId: string, reply: Result<Option<seq<Option<string>>>>)
    returns (domains: Outcome<seq<string>>, call: Call)
    ensures domains == DomainsByCertId(reply)
    ensures call == DescribeCertDomains(certId, "cdn")
  {
    call := DescribeCertDomains(certId, "cdn");
    if reply.Failure? {
      return Err(Wrapped(SdkRequestFailed(DescribeCertDomainsOp), reply.error)), call;
    }
    var temp: seq<string> := [];
    if reply.value.Some? {
      var list := reply.value.value;
      for k := 0 to |list|
        invariant Derefs(list[..k]) == Some(temp)
      {
        assert list[..k + 1][..k] == list[..k];
        if list[k].None? {
          assert Derefs(list) == None;
          return Panicked, call;
        }
        temp := temp + [list[k].value];
      }
      assert list[..|list|] == list;
    }
    return Ok(temp), call;
  }

  // ---------------------------------------------------------------------
  // updateDomainHttpsServerCert

  /** Whether the domain's HTTPS settings already name the certificate. */
  predicate IsBound(https: Option<Https>, certId: string)
  {
    https.Some? && https.value.certInfo.Some? && https.value.certInfo.value.certId == Some(certId)
  }

  /**
   * The HTTPS settings sent back: a domain without any gets only the switch
   * turned on; otherwise its settings are kept, save the SSL status, which
   * is cleared. Either way the certificate becomes the uploaded one, with no
   * other certificate field set.
   */
  function RebindHttps(current: Option<Https>, certId: string): (h: Https)
    ensures h.certInfo == Some(ServerCert(Some(certId), None))
    ensures h.sslStatus.None?
    ensures current.None? ==> h.httpsSwitch == Some("on") && h.settings == []
    ensures current.Some? ==> h.httpsSwitch == current.value.httpsSwitch && h.settings == current.value.settings
  {
    var base := if current.None? then Https(Some("on"), None, None, []) else current.value.(sslStatus := None);
    base.(certInfo := Some(ServerCert(Some(certId), None)))
  }

  /** The rewritten settings are recognised as bound: a second deployment skips the domain. */
  lemma RebindHttpsBinds(current: Option<Https>, certId: string)
    ensures IsBound(Some(RebindHttps(current, certId)), certId)
  {
  }

  /** The query for one domain's configuration: filter by name, first entry only. */
  function DescribeDomain(domain: string): Call
  {
    DescribeDomainsConfig("domain", [domain], 0, 1)
  }

  /**
   * updateDomainHttpsServerCert for one domain, given the replies to its
   * query and to its update: an SDK error is wrapped; an empty listing is a
   * "not found" error; a nil first entry panics; a domain already serving
   * the certificate is left alone; any other gets its settings rewritten.
   */
  function UpdateDomainRun(
    domain: string, certId: string,
    describe: Result<seq<Option<DomainConfig>>>, update: Option<Error>): (r: Run<(), Call>)
    ensures |r.calls| >= 1 && r.calls[0] == DescribeDomain(domain)
    ensures !r.outcome.OutOfFuel? && r.outcome != Err(Canceled)
    ensures describe.Failure? ==> r == Run(Err(Wrapped(SdkRequestFailed(DescribeDomainsConfigOp), describe.error)), [DescribeDomain(domain)])
    ensures describe == Success([]) ==> r == Run(Err(Message("domain " + domain + " not found")), [DescribeDomain(domain)])
    ensures |r.calls| == 2 <==>
      describe.Success? && |describe.value| > 0 && describe.value[0].Some? && !IsBound(describe.value[0].value.https, certId)
    ensures describe.Success? && |describe.value| > 0 && describe.value[0].None? ==>
      r == Run(Panicked, [DescribeDomain(domain)])
    ensures describe.Success? && |describe.value| > 0 && describe.value[0].Some? && IsBound(describe.value[0].value.https, certId) ==>
      r == Run(Ok(()), [DescribeDomain(domain)])
    ensures |r.calls| == 2 ==>
      r.calls[1] == UpdateDomainConfig(domain, RebindHttps(describe.value[0].value.https, certId))
      && (update.None? ==> r.outcome == Ok(()))
      && (update.Some? ==> r.outcome == Err(Wrapped(SdkRequestFailed(UpdateDomainConfigOp), update.value)))
  {
    var query := DescribeDomain(domain);
    match describe
    case Failure(e) => Run(Err(Wrapped(SdkRequestFailed(DescribeDomainsConfigOp), e)), [query])
    case Success(configs) =>
      if |configs| == 0 then Run(Err(Message("domain " + domain + " not found")), [query])
      else if configs[0].None? then Run(Panicked, [query])
      else if IsBound(configs[0].value.https, certId) then Run(Ok(()), [query])
      else
        var change := UpdateDomainConfig(domain, RebindHttps(configs[0].value.https, certId));
        match update
        case Some(e) => Run(Err(Wrapped(SdkRequestFailed(UpdateDomainConfigOp), e)), [query, change])
        case None => Run(Ok(()), [query, change])
  }

  /**
   * Deploying to a domain and then again, when the platform now reports the
   * settings sent the first time, sends no second update.
   */
  lemma UpdateDomainIsIdempotent(domain: string, certId: string, current: Option<Https>, update: Option<Error>, again: Option<Error>)
    ensures var https := RebindHttps(current, certId);
      UpdateDomainRun(domain, certId, Success([Some(DomainConfig(Some(https)))]), again)
        == Run(Ok(()), [DescribeDomain(domain)])
  {
    RebindHttpsBinds(current, certId);
  }

  // ---------------------------------------------------------------------
  // Deploy

  /**
   * The loop of Deploy over the domains from index k on, with the errors
   * and requests so far: before each domain the context is observed (the
   * k-th observation for the k-th domain); a closed context abandons the
   * loop and the errors collected; a panic ends everything; an error is
   * collected and the loop goes on.
   */
  function UpdateAll(
    ctx: Cancellation, domains: seq<string>, certId: string,
    describeReplies: nat -> Result<seq<Option<DomainConfig>>>, updateReplies: nat -> Option<Error>,
    k: nat, errs: seq<Error>, calls: seq<Call>): Run<seq<Error>, Call>
    requires k <= |domains|
    decreases |domains| - k
  {
    if k == |domains| then Run(Ok(errs), calls)
    else if ctx(k) then Run(Err(Canceled), calls)
    else
      var one := UpdateDomainRun(domains[k], certId, describeReplies(k), updateReplies(k));
      if one.outcome.Panicked? then Run(Panicked, calls + one.calls)
      else
        var errs' := if one.outcome.Err? then errs + [one.outcome.error] else errs;
        UpdateAll(ctx, domains, certId, describeReplies, updateReplies, k + 1, errs', calls + one.calls)
  }

  /**
   * The domains to update, given the reply to the lookup of the uploaded
   * certificate's domains: for a wildcard domain, whatever that lookup
   * yields; for any other, the domain itself and no lookup.
   */
  function DomainsToUpdate(domain: string, certDomains: Result<Option<seq<Option<string>>>>): (r: Outcome<seq<string>>)
    ensures !HasPrefix(domain, "*.") ==> r == Ok([domain])
    ensures HasPrefix(domain, "*.") ==> r == DomainsByCertId(certDomains)
    ensures !r.OutOfFuel?
  {
    if HasPrefix(domain, "*.") then DomainsByCertId(certDomains) else Ok([domain])
  }

  /** The requests made to find the domains: the lookup by certificate id, for a wildcard domain only. */
  function LookupCalls(domain: string, certId: string): (r: seq<Call>)
    ensures HasPrefix(domain, "*.") ==> r == [DescribeCertDomains(certId, "cdn")]
    ensures !HasPrefix(domain, "*.") ==> r == []
  {
    if HasPrefix(domain, "*.") then [DescribeCertDomains(certId, "cdn")] else []
  }

  /** SSLDeployerProvider.Deploy as a whole. */
  function DeployRun(
    p: Provider, ctx: Cancellation, certPem: string, privkeyPem: string,
    upload: Result<UploadResult>, certDomains: Result<Option<seq<Option<string>>>>,
    describeReplies: nat -> Result<seq<Option<DomainConfig>>>, updateReplies: nat -> Option<Error>): (r: Run<DeployResult, Call>)
    ensures p.config.domain == "" ==> r == Run(Err(Message(DomainRequired)), [])
    ensures p.config.domain != "" && upload.Failure? ==>
      r == Run(Err(Wrapped(UploadFailed, upload.error)), [Upload(certPem, privkeyPem)])
    ensures p.config.domain != "" && upload.Success? ==>
      var lookup := [Upload(certPem, privkeyPem)] + LookupCalls(p.config.domain, upload.value.certId);
      |r.calls| >= |lookup| && r.calls[..|lookup|] == lookup
    ensures p.config.domain != "" && upload.Success? && HasPrefix(p.config.domain, "*.") && DomainsByCertId(certDomains).Err? ==>
      r == Run(Err(DomainsByCertId(certDomains).error), [Upload(certPem, privkeyPem), DescribeCertDomains(upload.value.certId, "cdn")])
    ensures p.config.domain != "" && upload.Success? && HasPrefix(p.config.domain, "*.") && DomainsByCertId(certDomains).Panicked? ==>
      r == Run(Panicked, [Upload(certPem, privkeyPem), DescribeCertDomains(upload.value.certId, "cdn")])
    ensures r.outcome.Ok? ==> p.config.domain != "" && upload.Success? && DomainsToUpdate(p.config.domain, certDomains).Ok?
  {
    if p.config.domain == "" then Run(Err(Message(DomainRequired)), [])
    else
      var uploadCall := Upload(certPem, privkeyPem);
      match upload
      case Failure(e) => Run(Err(Wrapped(UploadFailed, e)), [uploadCall])
      case Success(upres) =>
        var lookup := [uploadCall] + LookupCalls(p.config.domain, upres.certId);
        var domains := DomainsToUpdate(p.config.domain, certDomains);
        if domains.Err? then Run(Err(domains.error), lookup)
        else if !domains.Ok? then Run(Panicked, lookup)
        else
          var all := UpdateAll(ctx, domains.value, upres.certId, describeReplies, updateReplies, 0, [], lookup);
          UpdateAllExtends(ctx, domains.value, upres.certId, describeReplies, updateReplies, 0, [], lookup);
          Run(
            if all.outcome.Ok? then (if |all.outcome.value| > 0 then Err(Joined(all.outcome.value)) else Ok(DeployResult))
            else if all.outcome.Err? then Err(all.outcome.error)
            else Panicked,
            all.calls)
  }

  /** The loop only appends to the requests already made. */
  lemma {:induction false} UpdateAllExtends(
    ctx: Cancellation, domains: seq<string>, certId: string,
    describeReplies: nat -> Result<seq<Option<DomainConfig>>>, updateReplies: nat -> Option<Error>,
    k: nat, errs: seq<Error>, calls: seq<Call>)
    requires k <= |domains|
    ensures var r := UpdateAll(ctx, domains, certId, describeReplies, updateReplies, k, errs, calls);
      |r.calls| >= |calls| && r.calls[..|calls|] == calls
    decreases |domains| - k
  {
    if k < |domains| && !ctx(k) {
      var one := UpdateDomainRun(domains[k], certId, describeReplies(k), updateReplies(k));
      if !one.outcome.Panicked? {
        var errs' := if one.outcome.Err? then errs + [one.outcome.error] else errs;
        UpdateAllExtends(ctx, domains, certId, describeReplies, updateReplies, k + 1, errs', calls + one.calls);
        var r := UpdateAll(ctx, domains, certId, describeReplies, updateReplies, k + 1, errs', calls + one.calls);
        assert r.calls[..|calls|] == r.calls[..|calls + one.calls|][..|calls|];
      }
    }
  }

  // ---------------------------------------------------------------------
  // Properties

  predicate DomainOk(
    domains: seq<string>, certId: string,
    describeReplies: nat -> Result<seq<Option<DomainConfig>>>, updateReplies: nat -> Option<Error>, j: nat)
    requires j < |domains|
  {
    UpdateDomainRun(domains[j], certId, describeReplies(j), updateReplies(j)).outcome.Ok?
  }

  predicate Undisturbed(
    ctx: Cancellation, domains: seq<string>, certId: string,
    describeReplies: nat -> Result<seq<Option<DomainConfig>>>, updateReplies: nat -> Option<Error>, j: nat)
    requires j < |domains|
  {
    !ctx(j) && !UpdateDomainRun(domains[j], certId, describeReplies(j), updateReplies(j)).outcome.Panicked?
  }

  /** The run of updateDomainHttpsServerCert for each domain, the j-th with the j-th replies. */
  function DomainRuns(
    domains: seq<string>, certId: string,
    describeReplies: nat -> Result<seq<Option<DomainConfig>>>, updateReplies: nat -> Option<Error>): seq<Run<(), Call>>
  {
    seq(|domains|, j requires 0 <= j < |domains| => UpdateDomainRun(domains[j], certId, describeReplies(j), updateReplies(j)))
  }

  /** The error of a run that failed with one, as a list of at most one. */
  function ErrorOf(r: Run<(), Call>): seq<Error>
  {
    if r.outcome.Err? then [r.outcome.error] else []
  }

  /** The errors of the runs that failed, in the order of the runs. */
  function ErrorsOf(rs: seq<Run<(), Call>>): seq<Error>
  {
    if |rs| == 0 then [] else ErrorOf(rs[0]) + ErrorsOf(rs[1..])
  }

  /** The requests of all the runs, one run after the other. */
  function CallsOf(rs: seq<Run<(), Call>>): seq<Call>
  {
    if |rs| == 0 then [] else rs[0].calls + CallsOf(rs[1..])
  }

  /** No error is collected exactly when no run failed with an error. */
  lemma {:induction false} ErrorsOfEmpty(rs: seq<Run<(), Call>>)
    ensures ErrorsOf(rs) == [] <==> forall j | 0 <= j < |rs| :: !rs[j].outcome.Err?
  {
    if |rs| > 0 {
      ErrorsOfEmpty(rs[1..]);
      assert forall j | 1 <= j < |rs| :: rs[j] == rs[1..][j - 1];
    }
  }

  /** The errors of a list of runs, split after its first run. */
  lemma ErrorsOfFirstRun(rs: seq<Run<(), Call>>, errs: seq<Error>)
    requires |rs| > 0
    ensures (errs + ErrorOf(rs[0])) + ErrorsOf(rs[1..]) == errs + ErrorsOf(rs)
  {
    var e := ErrorOf(rs[0]);
    var es := ErrorsOf(rs[1..]);
    assert ErrorsOf(rs) == e + es;
    AppendAssociative(errs, e, es);
  }

  /** The requests of a list of runs, split after its first run. */
  lemma CallsOfFirstRun(rs: seq<Run<(), Call>>, calls: seq<Call>)
    requires |rs| > 0
    ensures (calls + rs[0].calls) + CallsOf(rs[1..]) == calls + CallsOf(rs)
  {
    var cs := CallsOf(rs[1..]);
    assert CallsOf(rs) == rs[0].calls + cs;
    AppendAssociative(calls, rs[0].calls, cs);
  }

  lemma AppendAssociative<T>(a: seq<T>, b: seq<T>, c: seq<T>)
    ensures (a + b) + c == a + (b + c)
  {
  }

  /** One round of the loop on a domain reached undisturbed. */
  lemma UpdateAllStep(
    ctx: Cancellation, domains: seq<string>, certId: string,
    describeReplies: nat -> Result<seq<Option<DomainConfig>>>, updateReplies: nat -> Option<Error>,
    k: nat, errs: seq<Error>, calls: seq<Call>)
    requires k < |domains| && Undisturbed(ctx, domains, certId, describeReplies, updateReplies, k)
    ensures var one := DomainRuns(domains, certId, describeReplies, updateReplies)[k];
      UpdateAll(ctx, domains, certId, describeReplies, updateReplies, k, errs, calls)
        == UpdateAll(ctx, domains, certId, describeReplies, updateReplies, k + 1, errs + ErrorOf(one), calls + one.calls)
  {
    var one := UpdateDomainRun(domains[k], certId, describeReplies(k), updateReplies(k));
    assert errs + [] == errs;
  }

  /**
   * Without cancellation or panic every domain from k on is tried in order:
   * the loop collects, after the errors it had, exactly the errors of the
   * domains that failed, in domain order, and sends each domain's requests
   * in domain order.
   */
  lemma {:induction false} UpdateAllCollectsFailures(
    ctx: Cancellation, domains: seq<string>, certId: string,
    describeReplies: nat -> Result<seq<Option<DomainConfig>>>, updateReplies: nat -> Option<Error>,
    k: nat, errs: seq<Error>, calls: seq<Call>)
    requires k <= |domains|
    requires forall j | k <= j < |domains| :: Undisturbed(ctx, domains, certId, describeReplies, updateReplies, j)
    ensures var rs := DomainRuns(domains, certId, describeReplies, updateReplies)[k..];
      UpdateAll(ctx, domains, certId, describeReplies, updateReplies, k, errs, calls)
        == Run(Ok(errs + ErrorsOf(rs)), calls + CallsOf(rs))
    decreases |domains| - k
  {
    var all := DomainRuns(domains, certId, describeReplies, updateReplies);
    var rs := all[k..];
    if k == |domains| {
      assert rs == [];
      assert errs + [] == errs && calls + [] == calls;
    } else {
      UpdateAllStep(ctx, domains, certId, describeReplies, updateReplies, k, errs, calls);
      UpdateAllCollectsFailures(ctx, domains, certId, describeReplies, updateReplies, k + 1, errs + ErrorOf(all[k]), calls + all[k].calls);
      assert rs[1..] == all[k + 1..];
      ErrorsOfFirstRun(rs, errs);
      CallsOfFirstRun(rs, calls);
    }
  }

  /**
   * A closed context seen before some domain, with no panic before it,
   * cancels the deployment, whatever errors had been collected; the
   * requests are those of the domains before it.
   */
  lemma {:induction false} UpdateAllCanceled(
    ctx: Cancellation, domains: seq<string>, certId: string,
    describeReplies: nat -> Result<seq<Option<DomainConfig>>>, updateReplies: nat -> Option<Error>,
    k: nat, errs: seq<Error>, calls: seq<Call>, stop: nat)
    requires k <= stop < |domains| && ctx(stop)
    requires forall j | k <= j < stop :: Undisturbed(ctx, domains, certId, describeReplies, updateReplies, j)
    ensures UpdateAll(ctx, domains, certId, describeReplies, updateReplies, k, errs, calls)
      == Run(Err(Canceled), calls + CallsOf(DomainRuns(domains, certId, describeReplies, updateReplies)[k..stop]))
    decreases stop - k
  {
    var rs := DomainRuns(domains, certId, describeReplies, updateReplies)[k..stop];
    if k == stop {
      assert rs == [];
      assert calls + [] == calls;
    } else {
      assert Undisturbed(ctx, domains, certId, describeReplies, updateReplies, k);
      var one := UpdateDomainRun(domains[k], certId, describeReplies(k), updateReplies(k));
      var errs' := if one.outcome.Err? then errs + [one.outcome.error] else errs;
      assert rs[0] == one;
      assert rs[1..] == DomainRuns(domains, certId, describeReplies, updateReplies)[k + 1..stop];
      UpdateAllCanceled(ctx, domains, certId, describeReplies, updateReplies, k + 1, errs', calls + one.calls, stop);
      CallsOfFirstRun(rs, calls);
    }
  }

  /**
   * A domain whose update panics, reached with the context open and no
   * panic before it, ends the deployment in that panic, after the requests
   * of the domains up to and including it.
   */
  lemma {:induction false} UpdateAllPanics(
    ctx: Cancellation, domains: seq<string>, certId: string,
    describeReplies: nat -> Result<seq<Option<DomainConfig>>>, updateReplies: nat -> Option<Error>,
    k: nat, errs: seq<Error>, calls: seq<Call>, stop: nat)
    requires k <= stop < |domains| && !ctx(stop)
    requires UpdateDomainRun(domains[stop], certId, describeReplies(stop), updateReplies(stop)).outcome.Panicked?
    requires forall j | k <= j < stop :: Undisturbed(ctx, domains, certId, describeReplies, updateReplies, j)
    ensures UpdateAll(ctx, domains, certId, describeReplies, updateReplies, k, errs, calls)
      == Run(Panicked, calls + CallsOf(DomainRuns(domains, certId, describeReplies, updateReplies)[k..stop + 1]))
    decreases stop - k
  {
    var rs := DomainRuns(domains, certId, describeReplies, updateReplies)[k..stop + 1];
    var one := UpdateDomainRun(domains[k], certId, describeReplies(k), updateReplies(k));
    assert rs[0] == one;
    if k == stop {
      assert rs[1..] == [];
      assert CallsOf(rs) == one.calls + [];
    } else {
      assert Undisturbed(ctx, domains, certId, describeReplies, updateReplies, k);
      var errs' := if one.outcome.Err? then errs + [one.outcome.error] else errs;
      assert rs[1..] == DomainRuns(domains, certId, describeReplies, updateReplies)[k + 1..stop + 1];
      UpdateAllPanics(ctx, domains, certId, describeReplies, updateReplies, k + 1, errs', calls + one.calls, stop);
    }
    CallsOfFirstRun(rs, calls);
  }

  /**
   * For a domain that is not a wildcard, and no cancellation or panic,
   * Deploy succeeds exactly when that one domain was updated or already
   * bound, and otherwise returns its error joined.
   */
  lemma DeploySingleDomain(
    p: Provider, ctx: Cancellation, certPem: string, privkeyPem: string,
    upload: Result<UploadResult>, certDomains: Result<Option<seq<Option<string>>>>,
    describeReplies: nat -> Result<seq<Option<DomainConfig>>>, updateReplies: nat -> Option<Error>)
    requires p.config.domain != "" && !HasPrefix(p.config.domain, "*.") && upload.Success?
    requires Undisturbed(ctx, [p.config.domain], upload.value.certId, describeReplies, updateReplies, 0)
    ensures var r := DeployRun(p, ctx, certPem, privkeyPem, upload, certDomains, describeReplies, updateReplies);
      var one := UpdateDomainRun(p.config.domain, upload.value.certId, describeReplies(0), updateReplies(0));
      r.calls == [Upload(certPem, privkeyPem)] + one.calls
      && (r.outcome.Ok? <==> one.outcome.Ok?)
      && (one.outcome.Err? ==> r.outcome == Err(Joined([one.outcome.error])))
  {
    var certId := upload.value.certId;
    var ds := [p.config.domain];
    var lookup := [Upload(certPem, privkeyPem)];
    assert LookupCalls(p.config.domain, certId) == [];
    assert lookup + LookupCalls(p.config.domain, certId) == lookup;
    var one := UpdateDomainRun(p.config.domain, certId, describeReplies(0), updateReplies(0));
    var errs := if one.outcome.Err? then [one.outcome.error] else [];
    assert [] + errs == errs;
    assert UpdateAll(ctx, ds, certId, describeReplies, updateReplies, 1, errs, lookup + one.calls)
      == Run(Ok(errs), lookup + one.calls);
  }

  /**
   * For any domain list, with no cancellation and no panic, Deploy sends
   * the upload, the lookup for a wildcard domain, then each domain's
   * requests in domain order; it succeeds exactly when every domain was
   * updated or already bound, and otherwise returns the errors of the
   * failed domains, in domain order, joined.
   */
  lemma DeploySucceedsIffEveryDomainDoes(
    p: Provider, ctx: Cancellation, certPem: string, privkeyPem: string,
    upload: Result<UploadResult>, certDomains: Result<Option<seq<Option<string>>>>,
    describeReplies: nat -> Result<seq<Option<DomainConfig>>>, updateReplies: nat -> Option<Error>)
    requires p.config.domain != "" && upload.Success?
    requires var ds := DomainsToUpdate(p.config.domain, certDomains);
      ds.Ok? && forall j | 0 <= j < |ds.value| :: Undisturbed(ctx, ds.value, upload.value.certId, describeReplies, updateReplies, j)
    ensures var r := DeployRun(p, ctx, certPem, privkeyPem, upload, certDomains, describeReplies, updateReplies);
      var ds := DomainsToUpdate(p.config.domain, certDomains).value;
      var rs := DomainRuns(ds, upload.value.certId, describeReplies, updateReplies);
      r.calls == [Upload(certPem, privkeyPem)] + LookupCalls(p.config.domain, upload.value.certId) + CallsOf(rs)
      && r.outcome == (if ErrorsOf(rs) == [] then Ok(DeployResult) else Err(Joined(ErrorsOf(rs))))
      && (r.outcome.Ok? <==> forall j | 0 <= j < |ds| :: DomainOk(ds, upload.value.certId, describeReplies, updateReplies, j))
  {
    var certId := upload.value.certId;
    var ds := DomainsToUpdate(p.config.domain, certDomains).value;
    var rs := DomainRuns(ds, certId, describeReplies, updateReplies);
    var lookup := [Upload(certPem, privkeyPem)] + LookupCalls(p.config.domain, certId);
    UpdateAllCollectsFailures(ctx, ds, certId, describeReplies, updateReplies, 0, [], lookup);
    assert rs[0..] == rs;
    assert [] + ErrorsOf(rs) == ErrorsOf(rs);
    ErrorsOfEmpty(rs);
    forall j | 0 <= j < |ds|
      ensures DomainOk(ds, certId, describeReplies, updateReplies, j) <==> !rs[j].outcome.Err?
    {
      assert Undisturbed(ctx, ds, certId, describeReplies, updateReplies, j);
    }
  }

  /**
   * For a wildcard domain, Deploy looks up the domains bound to the uploaded
   * certificate with product "cdn", and then, with no cancellation or panic,
   * updates every domain listed, in the order listed.
   */
  lemma DeployWildcardDomain(
    p: Provider, ctx: Cancellation, certPem: string, privkeyPem: string,
    upload: Result<UploadResult>, certDomains: Result<Option<seq<Option<string>>>>, listed: seq<string>,
    describeReplies: nat -> Result<seq<Option<DomainConfig>>>, updateReplies: nat -> Option<Error>)
    requires HasPrefix(p.config.domain, "*.") && upload.Success? && DomainsByCertId(certDomains) == Ok(listed)
    requires forall j | 0 <= j < |listed| :: Undisturbed(ctx, listed, upload.value.certId, describeReplies, updateReplies, j)
    ensures var r := DeployRun(p, ctx, certPem, privkeyPem, upload, certDomains, describeReplies, updateReplies);
      var rs := DomainRuns(listed, upload.value.certId, describeReplies, updateReplies);
      r.calls == [Upload(certPem, privkeyPem), DescribeCertDomains(upload.value.certId, "cdn")] + CallsOf(rs)
      && r.outcome == (if ErrorsOf(rs) == [] then Ok(DeployResult) else Err(Joined(ErrorsOf(rs))))
  {
    assert p.config.domain != "";
    DeploySucceedsIffEveryDomainDoes(p, ctx, certPem, privkeyPem, upload, certDomains, describeReplies, updateReplies);
  }

  /** The method: Deploy's loop over the domains, collecting errors. */
  method Deploy(
    p: Provider, ctx: Cancellation, certPem: string, privkeyPem: string,
    upload: Result<UploadResult>, certDomains: Result<Option<seq<Option<string>>>>,
    describeReplies: nat -> Result<seq<Option<DomainConfig>>>, updateReplies: nat -> Option<Error>)
    returns (outcome: Outcome<DeployResult>, calls: seq<Call>)
    ensures Run(outcome, calls) == DeployRun(p, ctx, certPem, privkeyPem, upload, certDomains, describeReplies, updateReplies)
  {
    if p.config.domain == "" {
      return Err(Message(DomainRequired)), [];
    }
    calls := [Upload(certPem, privkeyPem)];
    if upload.Failure? {
      return Err(Wrapped(UploadFailed, upload.error)), calls;
    }
    var upres := upload.value;

    var domains: seq<string> := [];
    if HasPrefix(p.config.domain, "*.") {
      var temp, call := GetDomainsByCertId(upres.certId, certDomains);
      calls := calls + [call];
      if temp.Err? {
        return Err(temp.error), calls;
      } else if temp.Panicked? {
        return Panicked, calls;
      }
      domains := temp.value;
    } else {
      domains := domains + [p.config.domain];
    }

    assert domains == DomainsToUpdate(p.config.domain, certDomains).value;
    assert calls == [Upload(certPem, privkeyPem)] + LookupCalls(p.config.domain, upres.certId);
    ghost var whole := UpdateAll(ctx, domains, upres.certId, describeReplies, updateReplies, 0, [], calls);
    var errs: seq<Error> := [];
    for k := 0 to |domains|
      invariant whole == UpdateAll(ctx, domains, upres.certId, describeReplies, updateReplies, k, errs, calls)
    {
      if ctx(k) {
        return Err(Canceled), calls;
      }
      var one := UpdateDomainHttpsServerCert(domains[k], upres.certId, describeReplies(k), updateReplies(k));
      calls := calls + one.calls;
      if one.outcome.Panicked? {
        return Panicked, calls;
      }
      if one.outcome.Err? {
        errs := errs + [one.outcome.error];
      }
    }

    if |errs| > 0 {
      return Err(Joined(errs)), calls;
    }
    return Ok(DeployResult), calls;
  }

  /** updateDomainHttpsServerCert, the statement sequence as written. */
  method UpdateDomainHttpsServerCert(
    domain: string, certId: string,
    describe: Result<seq<Option<DomainConfig>>>, update: Option<Error>)
    returns (r: Run<(), Call>)
    ensures r == UpdateDomainRun(domain, certId, describe, update)
  {
    var query := DescribeDomainsConfig("domain", [domain], 0, 1);
    if describe.Failure? {
      return Run(Err(Wrapped(SdkRequestFailed(DescribeDomainsConfigOp), describe.error)), [query]);
    } else if |describe.value| == 0 {
      return Run(Err(Message("domain " + domain + " not found")), [query]);
    }
    var first := describe.value[0];
    if first.None? {
      return Run(Panicked, [query]);
    }
    var domainConfig := first.value;
    if domainConfig.https.Some? && domainConfig.https.value.certInfo.Some?
      && domainConfig.https.value.certInfo.value.certId.Some?
      && domainConfig.https.value.certInfo.value.certId.value == certId {
      return Run(Ok(()), [query]);
    }
    var https: Https;
    if domainConfig.https.None? {
      https := Https(Some("on"), None, None, []);
    } else {
      https := domainConfig.https.value.(sslStatus := None);
    }
    https := https.(certInfo := Some(ServerCert(Some(certId), None)));
    var change := UpdateDomainConfig(domain, https);
    if update.Some? {
      return Run(Err(Wrapped(SdkRequestFailed(UpdateDomainConfigOp), update.value)), [query, change]);
    }
    return Run(Ok(()), [query, change]);
  }
}
