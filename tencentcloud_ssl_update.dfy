/**
 * The Tencent Cloud "SSL update" deployer. It replaces a certificate on the
 * cloud resources bound to it in one of two ways: upload the new certificate
 * and ask the platform to swap the old id for the new one, or (when the
 * configuration asks to keep the old id) upload and swap in one request.
 * Either way it submits an asynchronous job until the platform accepts it,
 * then polls the job record until its counters reconcile.
 *
 * The SDK is a set of oracles: the reply to the n-th submission, the reply
 * to the n-th poll. `time.Sleep` between rounds is a step with no effect,
 * and since the Go loops have no bound, each loop is given `fuel` rounds.
 */
module TencentCloudSslUpdate {
  import opened Core
  import opened GoStrconv

  datatype Config = Config(
    secretId: string,
    secretKey: string,
    endpoint: string,
    certificiateId: string,
    isReplaced: bool,
    resourceTypes: seq<string>,
    resourceRegions: seq<string>)

  /** A constructed deployer; the SDK client and upload manager are the oracles. */
  datatype Provider = Provider(config: Config, sslManagerEndpoint: string)

  /** One resource type with the regions to update it in. */
  datatype ResourceTypeRegions = ResourceTypeRegions(resourceType: string, regions: seq<string>)

  /** The requests the deployer issues, with the fields it sets. */
  datatype Call =
    | Upload(certPem: string, privkeyPem: string)
    | UpdateCertificateInstance(
        oldCertificateId: string,
        certificateId: string,
        resourceTypes: seq<string>,
        resourceTypesRegions: Option<seq<ResourceTypeRegions>>)
    | DescribeHostUpdateRecordDetail(deployRecordId: string)
    | UploadUpdateCertificateInstance(
        oldCertificateId: string,
        certificatePublicKey: string,
        certificatePrivateKey: string,
        resourceTypes: seq<string>,
        resourceTypesRegions: Option<seq<ResourceTypeRegions>>)
    | DescribeHostUploadUpdateRecordDetail(recordId: int64, limit: int64)

  /** The reply to a job submission; either field may be nil. */
  datatype JobReply = JobReply(deployStatus: Option<int64>, deployRecordId: Option<uint64>)

  /** The counters of one job record; each field may be nil. */
  datatype Counts = Counts(
    running: Option<int64>,
    succeeded: Option<int64>,
    failed: Option<int64>,
    total: Option<int64>)

  /** The four int64 variables a polling round fills in, starting from 0. */
  datatype Counters = Counters(running: int64, succeeded: int64, failed: int64, total: int64)

  datatype Field = Running | Succeeded | Failed | Total

  function Get(c: Counts, f: Field): Option<int64>
  {
    match f
    case Running => c.running
    case Succeeded => c.succeeded
    case Failed => c.failed
    case Total => c.total
  }

  function Value(t: Counters, f: Field): int64
  {
    match f
    case Running => t.running
    case Succeeded => t.succeeded
    case Failed => t.failed
    case Total => t.total
  }

  const NoCounters := Counters(0, 0, 0, 0)

  const CertificateIdRequired := "config `certificateId` is required"
  const ResourceTypesRequired := "config `resourceTypes` is required"
  const UnexpectedJobStatus := "unexpected deployment job status"
  const UpdateCertificateInstanceOp := "ssl.UpdateCertificateInstance"
  const DescribeHostUpdateRecordDetailOp := "ssl.DescribeHostUpdateRecordDetail"
  const UploadUpdateCertificateInstanceOp := "ssl.UploadUpdateCertificateInstance"
  const DescribeHostUploadUpdateRecordDetailOp := "ssl.DescribeHostUploadUpdateRecordDetail"

  /** The page size of a record-detail query. */
  const RecordDetailLimit: int64 := 200

  /** The resource types for which the platform accepts a region list. */
  const RegionalResourceTypes: seq<string> := ["apigateway", "clb", "cos", "tcb", "tke", "tse", "waf"]

  // ---------------------------------------------------------------------
  // Construction

  /**
   * NewSSLDeployerProvider: a nil configuration is an error; so is a failure
   * to create the SDK client or the upload manager, each wrapped.
   */
  function New(config: Option<Config>, sdkClient: Option<Error>, sslManager: Option<Error>): (r: Result<Provider>)
    ensures config.None? ==> r == Failure(Message(ConfigNil))
    ensures config.Some? && sdkClient.Some? ==> r == Failure(Wrapped(CouldNotCreateSdkClient, sdkClient.value))
    ensures config.Some? && sdkClient.None? && sslManager.Some? ==> r == Failure(Wrapped(CouldNotCreateSslManager, sslManager.value))
    ensures r.Success? <==> config.Some? && sdkClient.None? && sslManager.None?
    ensures r.Success? ==> r.value.config == config.value && r.value.sslManagerEndpoint == config.value.endpoint
  {
    if config.None? then Failure(Message(ConfigNil))
    else if sdkClient.Some? then Failure(Wrapped(CouldNotCreateSdkClient, sdkClient.value))
    else if sslManager.Some? then Failure(Wrapped(CouldNotCreateSslManager, sslManager.value))
    else Success(Provider(config.value, config.value.endpoint))
  }

  // ---------------------------------------------------------------------
  // wrapResourceTypeRegions

  /** The entries for the resource types that take regions, in input order. */
  function Regional(types: seq<string>, regions: seq<string>): (r: seq<ResourceTypeRegions>)
    ensures |r| <= |types|
    ensures forall k | 0 <= k < |r| ::
      r[k].regions == regions && r[k].resourceType in RegionalResourceTypes && r[k].resourceType in types
  {
    if |types| == 0 then []
    else
      (if types[0] in RegionalResourceTypes then [ResourceTypeRegions(types[0], regions)] else [])
      + Regional(types[1..], regions)
  }

  /** The value wrapResourceTypeRegions returns: nil when either list is empty. */
  function ResourceTypeRegionsOf(types: seq<string>, regions: seq<string>): (r: Option<seq<ResourceTypeRegions>>)
    ensures r.None? <==> |types| == 0 || |regions| == 0
  {
    if |types| == 0 || |regions| == 0 then None else Some(Regional(types, regions))
  }

  /** Entries keep the input order: the entries of a concatenation are concatenated. */
  lemma {:induction false} RegionalAppend(a: seq<string>, b: seq<string>, regions: seq<string>)
    ensures Regional(a + b, regions) == Regional(a, regions) + Regional(b, regions)
  {
    if |a| > 0 {
      assert (a + b)[0] == a[0];
      assert (a + b)[1..] == a[1..] + b;
      RegionalAppend(a[1..], b, regions);
      var head := if a[0] in RegionalResourceTypes then [ResourceTypeRegions(a[0], regions)] else [];
      assert Regional(a + b, regions) == head + Regional(a[1..] + b, regions);
      assert Regional(a, regions) == head + Regional(a[1..], regions);
    } else {
      assert a + b == b;
    }
  }

  function TypesOf(r: seq<ResourceTypeRegions>): seq<string>
  {
    if |r| == 0 then [] else [r[0].resourceType] + TypesOf(r[1..])
  }

  /**
   * Each resource type that takes regions gets as many entries as it occurs
   * in the input; every other type gets none.
   */
  lemma {:induction false} RegionalCounts(types: seq<string>, regions: seq<string>, t: string)
    ensures multiset(TypesOf(Regional(types, regions)))[t]
      == if t in RegionalResourceTypes then multiset(types)[t] else 0
  {
    if |types| > 0 {
      RegionalCounts(types[1..], regions, t);
      var head := if types[0] in RegionalResourceTypes then [ResourceTypeRegions(types[0], regions)] else [];
      TypesOfAppend(head, Regional(types[1..], regions));
      assert types == [types[0]] + types[1..];
    }
  }

  lemma {:induction false} TypesOfAppend(a: seq<ResourceTypeRegions>, b: seq<ResourceTypeRegions>)
    ensures TypesOf(a + b) == TypesOf(a) + TypesOf(b)
  {
    if |a| > 0 {
      assert (a + b)[1..] == a[1..] + b;
      TypesOfAppend(a[1..], b);
    } else {
      assert a + b == b;
    }
  }

  /** wrapResourceTypeRegions: collects the entries in a loop. */
  method WrapResourceTypeRegions(types: seq<string>, regions: seq<string>)
    returns (r: Option<seq<ResourceTypeRegions>>)
    ensures r == ResourceTypeRegionsOf(types, regions)
  {
    if |types| == 0 || |regions| == 0 {
      return None;
    }
    var temp: seq<ResourceTypeRegions> := [];
    var i := 0;
    while i < |types|
      invariant 0 <= i <= |types|
      invariant temp == Regional(types[..i], regions)
    {
      RegionalAppend(types[..i], [types[i]], regions);
      assert types[..i + 1] == types[..i] + [types[i]];
      if types[i] in RegionalResourceTypes {
        temp := temp + [ResourceTypeRegions(types[i], regions)];
      }
      i := i + 1;
    }
    assert types[..i] == types;
    return Some(temp);
  }

  // ---------------------------------------------------------------------
  // The counters of a polling round

  /** One record read into the counters: each non-nil field overwrites its counter. */
  function Apply(t: Counters, c: Counts): (r: Counters)
    ensures forall f :: Value(r, f) == if Get(c, f).Some? then Get(c, f).value else Value(t, f)
  {
    Counters(
      if c.running.Some? then c.running.value else t.running,
      if c.succeeded.Some? then c.succeeded.value else t.succeeded,
      if c.failed.Some? then c.failed.value else t.failed,
      if c.total.Some? then c.total.value else t.total)
  }

  /** The counters after reading the records in order. */
  function FoldRecords(rs: seq<Counts>): Counters
  {
    if |rs| == 0 then NoCounters else Apply(FoldRecords(rs[..|rs| - 1]), rs[|rs| - 1])
  }

  /** Each counter holds the value of the last record in which that field is non-nil. */
  lemma {:induction false} FoldTakesLastSet(rs: seq<Counts>, f: Field, i: int)
    requires 0 <= i < |rs| && Get(rs[i], f).Some?
    requires forall k | i < k < |rs| :: Get(rs[k], f).None?
    ensures Value(FoldRecords(rs), f) == Get(rs[i], f).value
    decreases |rs|
  {
    if i < |rs| - 1 {
      var init := rs[..|rs| - 1];
      assert forall k | i < k < |init| :: init[k] == rs[k];
      FoldTakesLastSet(init, f, i);
    }
  }

  /** A counter no record sets stays 0. */
  lemma {:induction false} FoldDefaultsToZero(rs: seq<Counts>, f: Field)
    requires forall k | 0 <= k < |rs| :: Get(rs[k], f).None?
    ensures Value(FoldRecords(rs), f) == 0
  {
    if |rs| > 0 {
      var init := rs[..|rs| - 1];
      assert forall k | 0 <= k < |init| :: init[k] == rs[k];
      FoldDefaultsToZero(init, f);
    }
  }

  /** The job is complete when succeeded + failed (an int64 sum) equals the total. */
  predicate Settled(t: Counters)
  {
    AddInt64(t.succeeded, t.failed) == t.total
  }

  // ---------------------------------------------------------------------
  // One round of a loop, and the loop

  /** What one round decides from the reply it got: go round again, or stop. */
  datatype Step<T> = Continue | Stop(outcome: Outcome<T>)

  /**
   * A submission round: an SDK error or a nil status stops with an error;
   * status 1 stops with the record id (a nil id is dereferenced: a panic);
   * any other status submits again.
   */
  function SubmitStep(op: string, reply: Result<JobReply>): (s: Step<uint64>)
    ensures s.Continue? <==> reply.Success? && reply.value.deployStatus.Some? && reply.value.deployStatus.value != 1
    ensures reply.Failure? ==> s == Stop(Err(Wrapped(SdkRequestFailed(op), reply.error)))
    ensures reply.Success? && reply.value.deployStatus.None? ==> s == Stop(Err(Message(UnexpectedJobStatus)))
    ensures s.Stop? && s.outcome.Ok? ==>
      reply.Success? && reply.value.deployStatus == Some(1) && reply.value.deployRecordId == Some(s.outcome.value)
    ensures reply.Success? && reply.value.deployStatus == Some(1) && reply.value.deployRecordId.None? ==> s == Stop(Panicked)
    ensures s.Stop? ==> s.outcome != Err(Canceled) && !s.outcome.OutOfFuel?
  {
    match reply
    case Failure(e) => Stop(Err(Wrapped(SdkRequestFailed(op), e)))
    case Success(job) =>
      if job.deployStatus.None? then Stop(Err(Message(UnexpectedJobStatus)))
      else if job.deployStatus.value == 1 then
        if job.deployRecordId.None? then Stop(Panicked) else Stop(Ok(job.deployRecordId.value))
      else Continue
  }

  function UpdateStep(reply: Result<JobReply>): (s: Step<uint64>)
    ensures s.Stop? ==> s.outcome != Err(Canceled) && !s.outcome.OutOfFuel?
  {
    SubmitStep(UpdateCertificateInstanceOp, reply)
  }

  function UploadUpdateStep(reply: Result<JobReply>): (s: Step<uint64>)
    ensures s.Stop? ==> s.outcome != Err(Canceled) && !s.outcome.OutOfFuel?
  {
    SubmitStep(UploadUpdateCertificateInstanceOp, reply)
  }

  /**
   * A polling round of the first way: an SDK error or a nil total is an
   * error; otherwise the absent counters read as 0 and the loop stops,
   * successfully, exactly when the job is settled, failed records or not.
   */
  function PollStep(reply: Result<Counts>): (s: Step<()>)
    ensures reply.Failure? ==> s == Stop(Err(Wrapped(SdkRequestFailed(DescribeHostUpdateRecordDetailOp), reply.error)))
    ensures reply.Success? && reply.value.total.None? ==> s == Stop(Err(Message(UnexpectedJobStatus)))
    ensures s == Stop(Ok(())) <==> reply.Success? && reply.value.total.Some? && Settled(Apply(NoCounters, reply.value))
    ensures s.Continue? <==> reply.Success? && reply.value.total.Some? && !Settled(Apply(NoCounters, reply.value))
    ensures s.Stop? ==> s.outcome != Err(Canceled) && !s.outcome.OutOfFuel?
  {
    match reply
    case Failure(e) => Stop(Err(Wrapped(SdkRequestFailed(DescribeHostUpdateRecordDetailOp), e)))
    case Success(c) =>
      if c.total.None? then Stop(Err(Message(UnexpectedJobStatus)))
      else if Settled(Apply(NoCounters, c)) then Stop(Ok(()))
      else Continue
  }

  /**
   * A polling round of the second way: an SDK error or a nil record list is
   * an error; otherwise the counters are read from every record in turn and
   * the loop stops, successfully, exactly when they are settled.
   */
  function DetailStep(reply: Result<Option<seq<Counts>>>): (s: Step<()>)
    ensures reply.Failure? ==> s == Stop(Err(Wrapped(SdkRequestFailed(DescribeHostUploadUpdateRecordDetailOp), reply.error)))
    ensures reply == Success(None) ==> s == Stop(Err(Message(UnexpectedJobStatus)))
    ensures s == Stop(Ok(())) <==> reply.Success? && reply.value.Some? && Settled(FoldRecords(reply.value.value))
    ensures s.Continue? <==> reply.Success? && reply.value.Some? && !Settled(FoldRecords(reply.value.value))
    ensures s.Stop? ==> s.outcome != Err(Canceled) && !s.outcome.OutOfFuel?
  {
    match reply
    case Failure(e) => Stop(Err(Wrapped(SdkRequestFailed(DescribeHostUploadUpdateRecordDetailOp), e)))
    case Success(records) =>
      if records.None? then Stop(Err(Message(UnexpectedJobStatus)))
      else if Settled(FoldRecords(records.value)) then Stop(Ok(()))
      else Continue
  }

  /** An empty, non-nil record list completes the job at once, since 0 + 0 == 0. */
  lemma EmptyRecordListCompletes()
    ensures DetailStep(Success(Some([]))) == Stop(Ok(()))
  {
    assert FoldRecords([]) == NoCounters;
  }

  /**
   * How a loop ended: its outcome, how many requests were sent in all, and
   * how many times the context was observed.
   */
  datatype Phase<T> = Phase(outcome: Outcome<T>, sent: nat, rounds: nat)

  /**
   * A `for` loop of the deployer from round i on, after i rounds that each
   * sent a request and went round again: observe the context, send the
   * request, and let `step` judge the reply. `ctx` is observed at index
   * base + i, continuing the count of the loops before.
   */
  function Loop<R, T>(ctx: Cancellation, base: nat, replies: nat -> R, step: R -> Step<T>, i: nat, fuel: nat): Phase<T>
    decreases fuel
  {
    if fuel == 0 then Phase(OutOfFuel, i, i)
    else if ctx(base + i) then Phase(Err(Canceled), i, i + 1)
    else
      match step(replies(i))
      case Stop(o) => Phase(o, i + 1, i + 1)
      case Continue => Loop(ctx, base, replies, step, i + 1, fuel - 1)
  }

  /**
   * What a loop does: it sends a request only after finding the context
   * open, goes round again only on `Continue`, and ends out of fuel, on a
   * closed context (sending nothing in that round), or with the outcome the
   * last reply was judged to give.
   */
  lemma {:induction false} LoopTrace<R, T>(ctx: Cancellation, base: nat, replies: nat -> R, step: R -> Step<T>, i: nat, fuel: nat)
    ensures var p := Loop(ctx, base, replies, step, i, fuel);
      i <= p.sent <= i + fuel
      && (forall k | base + i <= k < base + p.sent :: !ctx(k))
      && (forall k | i <= k < p.sent - 1 :: step(replies(k)).Continue?)
      && ((p.outcome.OutOfFuel? && p.rounds == p.sent)
          || (p.outcome == Err(Canceled) && p.rounds == p.sent + 1 && ctx(base + p.sent))
          || (p.sent > i && p.rounds == p.sent && step(replies(p.sent - 1)) == Stop(p.outcome)))
    decreases fuel
  {
    if fuel > 0 && !ctx(base + i) && step(replies(i)).Continue? {
      LoopTrace(ctx, base, replies, step, i + 1, fuel - 1);
    }
  }

  /** `n` copies of one request. */
  function Repeat(c: Call, n: nat): (r: seq<Call>)
    ensures |r| == n && forall k | 0 <= k < n :: r[k] == c
  {
    if n == 0 then [] else Repeat(c, n - 1) + [c]
  }

  // ---------------------------------------------------------------------
  // The two ways, and Deploy

  /** The request of the first way's submission loop. */
  function UpdateRequest(config: Config, certId: string): Call
  {
    UpdateCertificateInstance(config.certificiateId, certId, config.resourceTypes,
      ResourceTypeRegionsOf(config.resourceTypes, config.resourceRegions))
  }

  /** The request of the second way's submission loop. */
  function UploadUpdateRequest(config: Config, certPem: string, privkeyPem: string): Call
  {
    UploadUpdateCertificateInstance(config.certificiateId, certPem, privkeyPem, config.resourceTypes,
      ResourceTypeRegionsOf(config.resourceTypes, config.resourceRegions))
  }

  /** An outcome that is not a value, passed on unchanged. */
  function Abandon<T, U>(o: Outcome<T>): (r: Outcome<U>)
    requires !o.Ok?
    ensures r.Err? <==> o.Err?
    ensures r.Err? ==> r.error == o.error
    ensures r.Panicked? <==> o.Panicked?
  {
    if o.Err? then Err(o.error) else if o.Panicked? then Panicked else OutOfFuel
  }

  /**
   * executeUpdateCertificateInstance: upload, submit the swap of the old id
   * for the new one until accepted, then poll the record, whose id is the
   * accepted record id written in decimal.
   */
  function UpdateRun(
    config: Config, ctx: Cancellation, certPem: string, privkeyPem: string,
    upload: Result<UploadResult>, jobReplies: nat -> Result<JobReply>,
    recordReplies: nat -> Result<Counts>, fuel: nat): Run<(), Call>
  {
    var uploadCall := Upload(certPem, privkeyPem);
    match upload
    case Failure(e) => Run(Err(Wrapped(UploadFailed, e)), [uploadCall])
    case Success(upres) =>
      var submit := Loop(ctx, 0, jobReplies, UpdateStep, 0, fuel);
      var submitted := [uploadCall] + Repeat(UpdateRequest(config, upres.certId), submit.sent);
      if !submit.outcome.Ok? then Run(Abandon(submit.outcome), submitted)
      else
        var poll := Loop(ctx, submit.rounds, recordReplies, PollStep, 0, fuel);
        Run(poll.outcome, submitted + Repeat(DescribeHostUpdateRecordDetail(FormatInt(submit.outcome.value)), poll.sent))
  }

  /**
   * executeUploadUpdateCertificateInstance: submit certificate and key with
   * the old id until accepted, then poll the record, whose id is the
   * accepted record id converted to int64, 200 entries at a time.
   */
  function UploadUpdateRun(
    config: Config, ctx: Cancellation, certPem: string, privkeyPem: string,
    jobReplies: nat -> Result<JobReply>, detailReplies: nat -> Result<Option<seq<Counts>>>,
    fuel: nat): Run<(), Call>
  {
    var submit := Loop(ctx, 0, jobReplies, UploadUpdateStep, 0, fuel);
    var submitted := Repeat(UploadUpdateRequest(config, certPem, privkeyPem), submit.sent);
    if !submit.outcome.Ok? then Run(Abandon(submit.outcome), submitted)
    else
      var poll := Loop(ctx, submit.rounds, detailReplies, DetailStep, 0, fuel);
      var request := DescribeHostUploadUpdateRecordDetail(Uint64ToInt64(submit.outcome.value), RecordDetailLimit);
      Run(poll.outcome, submitted + Repeat(request, poll.sent))
  }

  /**
   * Deploy: a missing certificate id, then an empty resource type list, fail
   * before anything is sent; otherwise `isReplaced` picks exactly one of the
   * two ways, and its error, if any, is returned as it is.
   */
  function DeployRun(
    p: Provider, ctx: Cancellation, certPem: string, privkeyPem: string,
    upload: Result<UploadResult>, jobReplies: nat -> Result<JobReply>,
    recordReplies: nat -> Result<Counts>, detailReplies: nat -> Result<Option<seq<Counts>>>,
    fuel: nat): (r: Run<DeployResult, Call>)
    ensures p.config.certificiateId == "" ==> r == Run(Err(Message(CertificateIdRequired)), [])
    ensures p.config.certificiateId != "" && |p.config.resourceTypes| == 0 ==>
      r == Run(Err(Message(ResourceTypesRequired)), [])
  {
    if p.config.certificiateId == "" then Run(Err(Message(CertificateIdRequired)), [])
    else if |p.config.resourceTypes| == 0 then Run(Err(Message(ResourceTypesRequired)), [])
    else
      var run := if p.config.isReplaced
        then UploadUpdateRun(p.config, ctx, certPem, privkeyPem, jobReplies, detailReplies, fuel)
        else UpdateRun(p.config, ctx, certPem, privkeyPem, upload, jobReplies, recordReplies, fuel);
      Run(if run.outcome.Ok? then Ok(DeployResult) else Abandon(run.outcome), run.calls)
  }

  // ---------------------------------------------------------------------
  // Properties of Deploy

  /** The requests that go to the SDK client, that is, all but the upload. */
  function SdkCalls(calls: seq<Call>): seq<Call>
  {
    if |calls| > 0 && calls[0].Upload? then calls[1..] else calls
  }

  predicate IsUpdateWay(c: Call)
  {
    c.Upload? || c.UpdateCertificateInstance? || c.DescribeHostUpdateRecordDetail?
  }

  predicate IsUploadUpdateWay(c: Call)
  {
    c.UploadUpdateCertificateInstance? || c.DescribeHostUploadUpdateRecordDetail?
  }

  /**
   * `isReplaced` selects exactly one way: every request belongs to the
   * upload-and-update way when it is set, and to the upload-then-update way
   * otherwise. Only the latter uploads, and only as its first request.
   */
  lemma DeployWay(
    p: Provider, ctx: Cancellation, certPem: string, privkeyPem: string,
    upload: Result<UploadResult>, jobReplies: nat -> Result<JobReply>,
    recordReplies: nat -> Result<Counts>, detailReplies: nat -> Result<Option<seq<Counts>>>, fuel: nat)
    ensures var r := DeployRun(p, ctx, certPem, privkeyPem, upload, jobReplies, recordReplies, detailReplies, fuel);
      (p.config.isReplaced ==> forall k | 0 <= k < |r.calls| :: IsUploadUpdateWay(r.calls[k]))
      && (!p.config.isReplaced ==> forall k | 0 <= k < |r.calls| :: IsUpdateWay(r.calls[k]))
      && (forall k | 0 < k < |r.calls| :: !r.calls[k].Upload?)
  {
  }

  /** In the first way, the requests after the upload each follow an open context. */
  lemma UpdateRunChecksCancellation(
    config: Config, ctx: Cancellation, certPem: string, privkeyPem: string,
    upload: Result<UploadResult>, jobReplies: nat -> Result<JobReply>,
    recordReplies: nat -> Result<Counts>, fuel: nat)
    ensures var r := UpdateRun(config, ctx, certPem, privkeyPem, upload, jobReplies, recordReplies, fuel);
      (forall k | 0 <= k < |SdkCalls(r.calls)| :: !ctx(k))
      && (r.outcome == Err(Canceled) ==> ctx(|SdkCalls(r.calls)|))
  {
    if upload.Success? {
      var r := UpdateRun(config, ctx, certPem, privkeyPem, upload, jobReplies, recordReplies, fuel);
      var submit := Loop(ctx, 0, jobReplies, UpdateStep, 0, fuel);
      LoopTrace(ctx, 0, jobReplies, UpdateStep, 0, fuel);
      if submit.outcome.Ok? {
        var poll := Loop(ctx, submit.rounds, recordReplies, PollStep, 0, fuel);
        LoopTrace(ctx, submit.rounds, recordReplies, PollStep, 0, fuel);
        var polls := Repeat(DescribeHostUpdateRecordDetail(FormatInt(submit.outcome.value)), poll.sent);
        assert r.calls == [Upload(certPem, privkeyPem)] + Repeat(UpdateRequest(config, upload.value.certId), submit.sent) + polls;
        assert |SdkCalls(r.calls)| == submit.rounds + poll.sent;
      } else {
        assert r.calls == [Upload(certPem, privkeyPem)] + Repeat(UpdateRequest(config, upload.value.certId), submit.sent);
        assert |SdkCalls(r.calls)| == submit.sent;
      }
    }
  }

  /** In the second way, every request follows an open context. */
  lemma UploadUpdateRunChecksCancellation(
    config: Config, ctx: Cancellation, certPem: string, privkeyPem: string,
    jobReplies: nat -> Result<JobReply>, detailReplies: nat -> Result<Option<seq<Counts>>>, fuel: nat)
    ensures var r := UploadUpdateRun(config, ctx, certPem, privkeyPem, jobReplies, detailReplies, fuel);
      (forall k | 0 <= k < |SdkCalls(r.calls)| :: !ctx(k))
      && (r.outcome == Err(Canceled) ==> ctx(|SdkCalls(r.calls)|))
  {
    var r := UploadUpdateRun(config, ctx, certPem, privkeyPem, jobReplies, detailReplies, fuel);
    var submit := Loop(ctx, 0, jobReplies, UploadUpdateStep, 0, fuel);
    LoopTrace(ctx, 0, jobReplies, UploadUpdateStep, 0, fuel);
    if submit.outcome.Ok? {
      var poll := Loop(ctx, submit.rounds, detailReplies, DetailStep, 0, fuel);
      LoopTrace(ctx, submit.rounds, detailReplies, DetailStep, 0, fuel);
      assert |SdkCalls(r.calls)| == submit.rounds + poll.sent;
    } else {
      assert |SdkCalls(r.calls)| == submit.sent;
    }
  }

  /**
   * Cancellation is checked before every request: the k-th request to the
   * SDK client is sent only after the k-th observation of the context found
   * it open, and the run returns ctx.Err() only when the observation after
   * the last request found it closed.
   */
  lemma DeployChecksCancellation(
    p: Provider, ctx: Cancellation, certPem: string, privkeyPem: string,
    upload: Result<UploadResult>, jobReplies: nat -> Result<JobReply>,
    recordReplies: nat -> Result<Counts>, detailReplies: nat -> Result<Option<seq<Counts>>>, fuel: nat)
    ensures var r := DeployRun(p, ctx, certPem, privkeyPem, upload, jobReplies, recordReplies, detailReplies, fuel);
      (forall k | 0 <= k < |SdkCalls(r.calls)| :: !ctx(k))
      && (r.outcome == Err(Canceled) ==> ctx(|SdkCalls(r.calls)|))
  {
    if p.config.isReplaced {
      UploadUpdateRunChecksCancellation(p.config, ctx, certPem, privkeyPem, jobReplies, detailReplies, fuel);
    } else {
      UpdateRunChecksCancellation(p.config, ctx, certPem, privkeyPem, upload, jobReplies, recordReplies, fuel);
    }
  }

  // ---------------------------------------------------------------------
  // The methods

  /** The first loop of executeUpdateCertificateInstance: submit until accepted. */
  method SubmitUpdateCertificateInstance(
    config: Config, ctx: Cancellation, certId: string, jobReplies: nat -> Result<JobReply>, fuel: nat)
    returns (outcome: Outcome<uint64>, calls: seq<Call>, rounds: nat)
    ensures Phase(outcome, |calls|, rounds) == Loop(ctx, 0, jobReplies, UpdateStep, 0, fuel)
    ensures calls == Repeat(UpdateRequest(config, certId), |calls|)
  {
    ghost var request := UpdateRequest(config, certId);
    calls := [];
    var i: nat := 0;
    while true
      invariant i <= fuel
      invariant Loop(ctx, 0, jobReplies, UpdateStep, 0, fuel) == Loop(ctx, 0, jobReplies, UpdateStep, i, fuel - i)
      invariant calls == Repeat(request, i)
      decreases fuel - i
    {
      if i == fuel {
        return OutOfFuel, calls, i;
      }
      if ctx(i) {
        return Err(Canceled), calls, i + 1;
      }
      var regions := WrapResourceTypeRegions(config.resourceTypes, config.resourceRegions);
      var req := UpdateCertificateInstance(config.certificiateId, certId, config.resourceTypes, regions);
      var reply := jobReplies(i);
      calls := calls + [req];
      i := i + 1;
      var step := JudgeJob(UpdateCertificateInstanceOp, reply);
      if step.Stop? {
        return step.outcome, calls, i;
      }
    }
  }

  /**
   * The body of one round of a submission loop: the SDK error, a nil
   * status, or status 1 with the record id (a nil id is dereferenced all
   * the same) stop the loop; any other status goes round again.
   */
  method JudgeJob(op: string, reply: Result<JobReply>) returns (step: Step<uint64>)
    ensures step == SubmitStep(op, reply)
  {
    if reply.Failure? {
      return Stop(Err(Wrapped(SdkRequestFailed(op), reply.error)));
    }
    if reply.value.deployStatus.None? {
      return Stop(Err(Message(UnexpectedJobStatus)));
    } else if reply.value.deployStatus.value == 1 {
      if reply.value.deployRecordId.None? {
        return Stop(Panicked);
      }
      return Stop(Ok(reply.value.deployRecordId.value));
    }
    return Continue;
  }

  /** The second loop of executeUpdateCertificateInstance: poll the record until settled. */
  method PollUpdateRecordDetail(
    ctx: Cancellation, base: nat, deployRecordId: string, recordReplies: nat -> Result<Counts>, fuel: nat)
    returns (outcome: Outcome<()>, calls: seq<Call>, rounds: nat)
    ensures Phase(outcome, |calls|, rounds) == Loop(ctx, base, recordReplies, PollStep, 0, fuel)
    ensures calls == Repeat(DescribeHostUpdateRecordDetail(deployRecordId), |calls|)
  {
    ghost var request := DescribeHostUpdateRecordDetail(deployRecordId);
    calls := [];
    var i: nat := 0;
    while true
      invariant i <= fuel
      invariant Loop(ctx, base, recordReplies, PollStep, 0, fuel) == Loop(ctx, base, recordReplies, PollStep, i, fuel - i)
      invariant calls == Repeat(request, i)
      decreases fuel - i
    {
      if i == fuel {
        return OutOfFuel, calls, i;
      }
      if ctx(base + i) {
        return Err(Canceled), calls, i + 1;
      }
      var req := DescribeHostUpdateRecordDetail(deployRecordId);
      var reply := recordReplies(i);
      calls := calls + [req];
      i := i + 1;
      var step := JudgeRecord(reply);
      if step.Stop? {
        return step.outcome, calls, i;
      }
    }
  }

  /**
   * The body of one round of the first poll: the SDK error or a nil total
   * stop the loop; otherwise the counters, 0 where nil, decide.
   */
  method JudgeRecord(reply: Result<Counts>) returns (step: Step<()>)
    ensures step == PollStep(reply)
  {
    if reply.Failure? {
      return Stop(Err(Wrapped(SdkRequestFailed(DescribeHostUpdateRecordDetailOp), reply.error)));
    }
    var runningCount, succeededCount, failedCount, totalCount: int64 := 0, 0, 0, 0;
    var counts := reply.value;
    if counts.total.None? {
      return Stop(Err(Message(UnexpectedJobStatus)));
    }
    if counts.running.Some? {
      runningCount := counts.running.value;
    }
    if counts.succeeded.Some? {
      succeededCount := counts.succeeded.value;
    }
    if counts.failed.Some? {
      failedCount := counts.failed.value;
    }
    if counts.total.Some? {
      totalCount := counts.total.value;
    }
    assert Counters(runningCount, succeededCount, failedCount, totalCount) == Apply(NoCounters, counts);
    if AddInt64(succeededCount, failedCount) == totalCount {
      return Stop(Ok(()));
    }
    return Continue;
  }

  /** The first loop of executeUploadUpdateCertificateInstance: submit until accepted. */
  method SubmitUploadUpdateCertificateInstance(
    config: Config, ctx: Cancellation, certPem: string, privkeyPem: string,
    jobReplies: nat -> Result<JobReply>, fuel: nat)
    returns (outcome: Outcome<uint64>, calls: seq<Call>, rounds: nat)
    ensures Phase(outcome, |calls|, rounds) == Loop(ctx, 0, jobReplies, UploadUpdateStep, 0, fuel)
    ensures calls == Repeat(UploadUpdateRequest(config, certPem, privkeyPem), |calls|)
  {
    ghost var request := UploadUpdateRequest(config, certPem, privkeyPem);
    calls := [];
    var i: nat := 0;
    while true
      invariant i <= fuel
      invariant Loop(ctx, 0, jobReplies, UploadUpdateStep, 0, fuel) == Loop(ctx, 0, jobReplies, UploadUpdateStep, i, fuel - i)
      invariant calls == Repeat(request, i)
      decreases fuel - i
    {
      if i == fuel {
        return OutOfFuel, calls, i;
      }
      if ctx(i) {
        return Err(Canceled), calls, i + 1;
      }
      var regions := WrapResourceTypeRegions(config.resourceTypes, config.resourceRegions);
      var req := UploadUpdateCertificateInstance(config.certificiateId, certPem, privkeyPem, config.resourceTypes, regions);
      var reply := jobReplies(i);
      calls := calls + [req];
      i := i + 1;
      var step := JudgeJob(UploadUpdateCertificateInstanceOp, reply);
      if step.Stop? {
        return step.outcome, calls, i;
      }
    }
  }

  /** The `for range` over the record details: each record overwrites the counters it sets. */
  method ReadRecords(records: seq<Counts>)
    returns (runningCount: int64, succeededCount: int64, failedCount: int64, totalCount: int64)
    ensures Counters(runningCount, succeededCount, failedCount, totalCount) == FoldRecords(records)
  {
    runningCount, succeededCount, failedCount, totalCount := 0, 0, 0, 0;
    for k := 0 to |records|
      invariant Counters(runningCount, succeededCount, failedCount, totalCount) == FoldRecords(records[..k])
    {
      assert records[..k + 1][..k] == records[..k];
      var record := records[k];
      if record.running.Some? {
        runningCount := record.running.value;
      }
      if record.succeeded.Some? {
        succeededCount := record.succeeded.value;
      }
      if record.failed.Some? {
        failedCount := record.failed.value;
      }
      if record.total.Some? {
        totalCount := record.total.value;
      }
    }
    assert records[..|records|] == records;
  }

  /**
   * The second loop of executeUploadUpdateCertificateInstance: poll the
   * record, reading the counters of every detail entry in turn, until settled.
   */
  method PollUploadUpdateRecordDetail(
    ctx: Cancellation, base: nat, deployRecordId: int64,
    detailReplies: nat -> Result<Option<seq<Counts>>>, fuel: nat)
    returns (outcome: Outcome<()>, calls: seq<Call>, rounds: nat)
    ensures Phase(outcome, |calls|, rounds) == Loop(ctx, base, detailReplies, DetailStep, 0, fuel)
    ensures calls == Repeat(DescribeHostUploadUpdateRecordDetail(deployRecordId, RecordDetailLimit), |calls|)
  {
    ghost var request := DescribeHostUploadUpdateRecordDetail(deployRecordId, RecordDetailLimit);
    calls := [];
    var i: nat := 0;
    while true
      invariant i <= fuel
      invariant Loop(ctx, base, detailReplies, DetailStep, 0, fuel) == Loop(ctx, base, detailReplies, DetailStep, i, fuel - i)
      invariant calls == Repeat(request, i)
      decreases fuel - i
    {
      if i == fuel {
        return OutOfFuel, calls, i;
      }
      if ctx(base + i) {
        return Err(Canceled), calls, i + 1;
      }
      var req := DescribeHostUploadUpdateRecordDetail(deployRecordId, RecordDetailLimit);
      var reply := detailReplies(i);
      calls := calls + [req];
      i := i + 1;
      var step := JudgeRecordDetail(reply);
      if step.Stop? {
        return step.outcome, calls, i;
      }
    }
  }

  /**
   * The body of one round of the second poll: the SDK error, a nil detail
   * list, or the counters read from every detail entry decide whether to
   * stop.
   */
  method JudgeRecordDetail(reply: Result<Option<seq<Counts>>>) returns (step: Step<()>)
    ensures step == DetailStep(reply)
  {
    if reply.Failure? {
      return Stop(Err(Wrapped(SdkRequestFailed(DescribeHostUploadUpdateRecordDetailOp), reply.error)));
    }
    if reply.value.None? {
      return Stop(Err(Message(UnexpectedJobStatus)));
    }
    var runningCount, succeededCount, failedCount, totalCount := ReadRecords(reply.value.value);
    if AddInt64(succeededCount, failedCount) == totalCount {
      return Stop(Ok(()));
    }
    return Continue;
  }

  /** executeUpdateCertificateInstance: upload, then its two loops. */
  method ExecuteUpdateCertificateInstance(
    config: Config, ctx: Cancellation, certPem: string, privkeyPem: string,
    upload: Result<UploadResult>, jobReplies: nat -> Result<JobReply>,
    recordReplies: nat -> Result<Counts>, fuel: nat)
    returns (outcome: Outcome<()>, calls: seq<Call>)
    ensures Run(outcome, calls) == UpdateRun(config, ctx, certPem, privkeyPem, upload, jobReplies, recordReplies, fuel)
  {
    calls := [Upload(certPem, privkeyPem)];
    if upload.Failure? {
      return Err(Wrapped(UploadFailed, upload.error)), calls;
    }
    var submitted, submitCalls, rounds := SubmitUpdateCertificateInstance(config, ctx, upload.value.certId, jobReplies, fuel);
    calls := calls + submitCalls;
    if !submitted.Ok? {
      return Abandon(submitted), calls;
    }
    var deployRecordId := FormatInt(submitted.value);
    var polled, pollCalls, _ := PollUpdateRecordDetail(ctx, rounds, deployRecordId, recordReplies, fuel);
    return polled, calls + pollCalls;
  }

  /** executeUploadUpdateCertificateInstance: its two loops. */
  method ExecuteUploadUpdateCertificateInstance(
    config: Config, ctx: Cancellation, certPem: string, privkeyPem: string,
    jobReplies: nat -> Result<JobReply>, detailReplies: nat -> Result<Option<seq<Counts>>>, fuel: nat)
    returns (outcome: Outcome<()>, calls: seq<Call>)
    ensures Run(outcome, calls) == UploadUpdateRun(config, ctx, certPem, privkeyPem, jobReplies, detailReplies, fuel)
  {
    var submitted, submitCalls, rounds := SubmitUploadUpdateCertificateInstance(config, ctx, certPem, privkeyPem, jobReplies, fuel);
    calls := submitCalls;
    if !submitted.Ok? {
      return Abandon(submitted), calls;
    }
    var deployRecordId := Uint64ToInt64(submitted.value);
    var polled, pollCalls, _ := PollUploadUpdateRecordDetail(ctx, rounds, deployRecordId, detailReplies, fuel);
    return polled, calls + pollCalls;
  }

  /** SSLDeployerProvider.Deploy */
  method Deploy(
    p: Provider, ctx: Cancellation, certPem: string, privkeyPem: string,
    upload: Result<UploadResult>, jobReplies: nat -> Result<JobReply>,
    recordReplies: nat -> Result<Counts>, detailReplies: nat -> Result<Option<seq<Counts>>>, fuel: nat)
    returns (outcome: Outcome<DeployResult>, calls: seq<Call>)
    ensures Run(outcome, calls) == DeployRun(p, ctx, certPem, privkeyPem, upload, jobReplies, recordReplies, detailReplies, fuel)
  {
    if p.config.certificiateId == "" {
      return Err(Message(CertificateIdRequired)), [];
    } else if |p.config.resourceTypes| == 0 {
      return Err(Message(ResourceTypesRequired)), [];
    }
    var result: Outcome<()>;
    if p.config.isReplaced {
      result, calls := ExecuteUploadUpdateCertificateInstance(p.config, ctx, certPem, privkeyPem, jobReplies, detailReplies, fuel);
    } else {
      result, calls := ExecuteUpdateCertificateInstance(p.config, ctx, certPem, privkeyPem, upload, jobReplies, recordReplies, fuel);
    }
    if !result.Ok? {
      return Abandon(result), calls;
    }
    return Ok(DeployResult), calls;
  }
}
