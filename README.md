# Certimate certificate deployment, modelled in Dafny

Certimate is a certificate-management server. It issues certificates and then
deploys them to the hosts and cloud services that serve them. This project
models the deployment layer of its Go code:

- **the provider registry** (`internal/domain/provider.go`): the five
  families of provider type constants (access, certificate authority, ACME
  DNS-01, deployment, notification). It proves the two rules their doc
  comments state: the part before the first `-` is an access provider type,
  and each family is kept in ASCII order. The second rule fails for two
  families, and the model names every adjacent pair that breaks it.
- **the workflow-facing deployer** (`internal/deployer/deployer.go`): it builds
  a provider deployer from a workflow deploy node and wraps it in a proxy
  object that stores the certificate and key to deploy.
- **five provider deployers** under `pkg/core/ssl-deployer/providers/`:
  - Tencent Cloud SSL update: two asynchronous submit-then-poll loops.
  - Tencent Cloud CDN: wildcard domain lookup, then a per-domain HTTPS rewrite
    that collects errors.
  - Tencent Cloud CSS (live streaming): bind one domain.
  - Aliyun Anti-DDoS: associate an uploaded certificate by its numeric id.
  - Kong: replace a certificate object through the Admin API, optionally in a
    workspace.
- **the conditional helpers** of `pkg/utils/ifelse`.
- **the small part of Go's standard library these use**: `strings.TrimSpace`,
  `strings.TrimRight`, `url.PathEscape`, `strconv.Atoi`, and the `int32(...)`
  and `int64(...)` conversions with their wrap-around. These are written out
  because the properties depend on them.

How Go concepts are represented:

- Everything a deployer asks of the outside world is a parameter: the upload
  manager's reply, each SDK reply, the context's cancellation state.
  Cancellation is a function from the n-th observation to "closed or not".
- Each deployer returns a `Run`: its outcome (`Ok`, `Err`, `Panicked` for a nil
  dereference, or `OutOfFuel`) and the exact list of requests it sent, with
  the fields it set.
- Code that loops or updates variables is a `method` with loop invariants. It
  is proved equal to a specification function, and the properties are proved
  as lemmas about that function. `proxyDeployer` is a `class`.

Modules, one file each:

| file | module |
|---|---|
| `core.dfy` | `Core` |
| `go_strings.dfy` | `GoStrings` |
| `go_url.dfy` | `GoUrl` |
| `go_strconv.dfy` | `GoStrconv` |
| `ifelse.dfy` | `IfElse` |
| `provider.dfy` | `Domain` |
| `deployer.dfy` | `Deployer` |
| `tencentcloud.dfy` | `TencentCloud` |
| `tencentcloud_ssl_update.dfy` | `TencentCloudSslUpdate` |
| `tencentcloud_cdn.dfy` | `TencentCloudCdn` |
| `tencentcloud_css.dfy` | `TencentCloudCss` |
| `aliyun_ddos.dfy` | `AliyunDdos` |
| `kong.dfy` | `Kong` |

`TencentCloud` holds the endpoint choices the three Tencent Cloud deployers
share.

## Model

| member | source | states |
|---|---|---|
| IfElse.Ternary | pkg/utils/ifelse/ternary.go:12-18 | the result is the consequent when the condition holds and the alternative otherwise |
| IfElse.TernaryFunc | pkg/utils/ifelse/ternary.go:29-35 | only the selected function is evaluated; its value is the result, and the other function may be undefined |
| IfElse.TernaryFuncIsTernary | pkg/utils/ifelse/ternary.go:12-35 | with total functions, TernaryFunc picks what Ternary picks between their values |
| IfElse.If | pkg/utils/ifelse/ifelse.go:15-19 | the builder stores the condition unchanged |
| IfElse.IfExpr.Then | pkg/utils/ifelse/ifelse.go:21-26 | Then keeps the condition and records the consequent |
| IfElse.ThenExpr.Else | pkg/utils/ifelse/ifelse.go:28-34 | Else yields the consequent when the condition holds, else the alternative |
| IfElse.IfThenElseIsTernary | pkg/utils/ifelse/ifelse.go:15-34 | `If(c).Then(a).Else(b)` equals `Ternary(c, a, b)` for all inputs |
| Domain.AccessProviderTypesNotOrdered | internal/domain/provider.go:5-93 | the access family breaks its own ASCII-order rule at exactly five adjacent pairs, BytePlus/Bunny, Gname/Gcore, Kong/Kubernetes, LetsEncryptStaging/LeCDN and Qiniu/QingCloud, and every other adjacent pair is in order |
| Domain.AccessProviderTypesInAsciiOrderOrdered | internal/domain/provider.go:5-93 | a rearrangement of the access family that is strictly ASCII-ordered exists |
| Domain.AccessProviderTypesInAsciiOrderIsRearrangement | internal/domain/provider.go:11-93 | that ordered list has the same length and the same members as the declared family |
| Domain.AccessProviderTypesHaveNoDash | internal/domain/provider.go:11-93 | no access type contains `-`, so the part before the first `-` of any value is well defined |
| Domain.AccessProviderTypesDistinct | internal/domain/provider.go:11-93 | no two access constants share a value |
| Domain.CAProviderTypesOrdered | internal/domain/provider.go:97-112 | the certificate authority family is strictly ASCII-ordered as declared |
| Domain.CAProviderTypesAreAccessProviderTypes | internal/domain/provider.go:97-112 | every CA type is itself an access type, as the prefix rule requires |
| Domain.CAProviderTypesDistinct | internal/domain/provider.go:104-112 | no two CA constants share a value |
| Domain.ACMEDns01ProviderTypesOrdered | internal/domain/provider.go:116-173 | the ACME DNS-01 family is strictly ASCII-ordered as declared |
| Domain.ACMEDns01ProviderTypesHaveAccessPrefix | internal/domain/provider.go:116-173 | every ACME DNS-01 type is an access type, alone or followed by `-` and a suffix |
| Domain.ACMEDns01PrefixRule | internal/domain/provider.go:116-173 | the part of every ACME DNS-01 type before its first `-` is an access type |
| Domain.ACMEDns01SuffixlessAreAccessProviderTypes | internal/domain/provider.go:123-173 | an ACME DNS-01 type is an access type exactly when it has no `-` |
| Domain.ACMEDns01ProviderTypesDistinct | internal/domain/provider.go:123-173 | no two ACME DNS-01 constants share a value |
| Domain.DeploymentProviderTypesInAsciiOrderOrdered | internal/domain/provider.go:177-284 | an ASCII-ordered rearrangement of the deployment family exists |
| Domain.DeploymentProviderTypesInAsciiOrderIsRearrangement | internal/domain/provider.go:184-284 | that ordered list has the same length and members as the declared family |
| Domain.DeploymentProviderTypesHaveAccessPrefix | internal/domain/provider.go:177-284 | every deployment type is an access type, alone or followed by `-` and a suffix |
| Domain.DeploymentPrefixRule | internal/domain/provider.go:177-284 | the part of every deployment type before its first `-` is an access type |
| Domain.DeploymentSuffixlessAreAccessProviderTypes | internal/domain/provider.go:184-284 | a deployment type is an access type exactly when it has no `-` |
| Domain.DeploymentProviderTypesDistinct | internal/domain/provider.go:184-284 | no two deployment constants share a value |
| Domain.DeploymentProviderTypesNotOrdered | internal/domain/provider.go:177-284 | the deployment family breaks its ASCII-order rule at exactly two adjacent pairs, APISIX/AWS ACM and Kong/Kubernetes Secret, and every other adjacent pair is in order |
| Domain.ApisixDeploymentTypeIsUnderAws | internal/domain/provider.go:203-204 | as written, the APISIX deployment type's access part is "aws", not "apisix", and it breaks the order before AWS ACM |
| Domain.ApisixIntendedRestoresOrder | internal/domain/provider.go:202-204 | with the value "apisix" the type belongs to the APISIX access type and sits in order between its neighbours |
| Domain.NotificationProviderTypesOrdered | internal/domain/provider.go:288-305 | the notification family is strictly ASCII-ordered as declared |
| Domain.NotificationProviderTypesAreAccessProviderTypes | internal/domain/provider.go:288-305 | every notification type is itself an access type |
| Domain.NotificationProviderTypesDistinct | internal/domain/provider.go:295-305 | no two notification constants share a value |
| Deployer.NewOutcome | internal/deployer/deployer.go:17-46 | a non-deploy node is rejected before any lookup; a lookup error names the access id and wraps the cause; a createDeployer error comes back unchanged; success holds the built deployer and exactly the given certificate and key |
| Deployer.ErrorOf | internal/deployer/deployer.go:56-59 | the error is absent exactly when the inner deployment succeeded, and is otherwise its error |
| Deployer.ProxyDeployer.State | internal/deployer/deployer.go:49-54 | the proxy's state is its three fields |
| Deployer.ProxyDeployer.constructor | internal/deployer/deployer.go:40-45 | the new proxy holds the given deployer, certificate and key |
| Deployer.ProxyDeployer.Deploy | internal/deployer/deployer.go:56-59 | the inner deployer receives the context and the stored certificate and key; its result is dropped and its error returned |
| Deployer.NewWithDeployNode | internal/deployer/deployer.go:17-46 | the method makes the calls and returns the error or fresh proxy that NewOutcome specifies |
| Deployer.NewThenDeploy | internal/deployer/deployer.go:17-59 | end to end, a successfully built proxy hands the inner deployer exactly the node's certificate and key |
| TencentCloud.ClientEndpoint | pkg/core/ssl-deployer/providers/tencentcloud-cdn/tencentcloud_cdn.go:210-216 | the client keeps the profile default exactly when the endpoint is empty, and otherwise uses it unchanged |
| TencentCloud.SslManagerEndpoint | pkg/core/ssl-deployer/providers/tencentcloud-cdn/tencentcloud_cdn.go:55-61 | the international SSL endpoint is chosen exactly when the trimmed endpoint ends with "intl.tencentcloudapi.com"; otherwise the default "" |
| TencentCloud.SslManagerEndpointOfTrimmed | pkg/core/ssl-deployer/providers/tencentcloud-css/tencentcloud_css.go:49-55 | white space around the endpoint does not change the choice |
| TencentCloud.SslManagerEndpointOfServiceHost | pkg/core/ssl-deployer/providers/tencentcloud-css/tencentcloud_css.go:49-55 | for `<host>.tencentcloudapi.com`, the international endpoint is chosen exactly when the host ends with "intl" |
| TencentCloudSslUpdate.New | pkg/core/ssl-deployer/providers/tencentcloud-ssl-update/tencentcloud_ssl_update.go:45-70 | nil config and constructor errors fail in order, each wrapped; success holds the config and passes its endpoint to the manager |
| TencentCloudSslUpdate.Regional | pkg/core/ssl-deployer/providers/tencentcloud-ssl-update/tencentcloud_ssl_update.go:292-303 | every entry is a region-taking type from the input, with the whole region list, and there are no more entries than types |
| TencentCloudSslUpdate.ResourceTypeRegionsOf | pkg/core/ssl-deployer/providers/tencentcloud-ssl-update/tencentcloud_ssl_update.go:287-290 | the result is nil exactly when either list is empty |
| TencentCloudSslUpdate.RegionalAppend | pkg/core/ssl-deployer/providers/tencentcloud-ssl-update/tencentcloud_ssl_update.go:296-303 | entries keep input order: the entries of a concatenation are the concatenated entries |
| TencentCloudSslUpdate.RegionalCounts | pkg/core/ssl-deployer/providers/tencentcloud-ssl-update/tencentcloud_ssl_update.go:293-303 | each type on the allow-list gets as many entries as it occurs in the input; any other type gets none |
| TencentCloudSslUpdate.TypesOfAppend | pkg/core/ssl-deployer/providers/tencentcloud-ssl-update/tencentcloud_ssl_update.go:296-303 | the types of concatenated entries are the concatenated types |
| TencentCloudSslUpdate.WrapResourceTypeRegions | pkg/core/ssl-deployer/providers/tencentcloud-ssl-update/tencentcloud_ssl_update.go:287-306 | the loop returns what ResourceTypeRegionsOf specifies |
| TencentCloudSslUpdate.Apply | pkg/core/ssl-deployer/providers/tencentcloud-ssl-update/tencentcloud_ssl_update.go:164-175 | every non-nil field of a record overwrites its counter; every other counter keeps its value |
| TencentCloudSslUpdate.FoldTakesLastSet | pkg/core/ssl-deployer/providers/tencentcloud-ssl-update/tencentcloud_ssl_update.go:244-257 | after reading all records, each counter holds the value of the last record that sets that field |
| TencentCloudSslUpdate.FoldDefaultsToZero | pkg/core/ssl-deployer/providers/tencentcloud-ssl-update/tencentcloud_ssl_update.go:240-257 | a counter that no record sets stays 0 |
| TencentCloudSslUpdate.SubmitStep | pkg/core/ssl-deployer/providers/tencentcloud-ssl-update/tencentcloud_ssl_update.go:129-138 | a submission round goes round again exactly on a non-nil status other than 1; an SDK error is wrapped; a nil status is an error; status 1 yields the record id, or a panic when the id is nil |
| TencentCloudSslUpdate.PollStep | pkg/core/ssl-deployer/providers/tencentcloud-ssl-update/tencentcloud_ssl_update.go:156-179 | an SDK error or nil total stops with an error; otherwise the loop stops successfully exactly when succeeded + failed equals the total, failures or not |
| TencentCloudSslUpdate.DetailStep | pkg/core/ssl-deployer/providers/tencentcloud-ssl-update/tencentcloud_ssl_update.go:236-261 | an SDK error or nil detail list stops with an error; otherwise the loop stops successfully exactly when the counters read from all records are settled |
| TencentCloudSslUpdate.EmptyRecordListCompletes | pkg/core/ssl-deployer/providers/tencentcloud-ssl-update/tencentcloud_ssl_update.go:241-261 | an empty, non-nil record list completes the job at once |
| TencentCloudSslUpdate.LoopTrace | pkg/core/ssl-deployer/providers/tencentcloud-ssl-update/tencentcloud_ssl_update.go:115-141 | a loop sends a request only after finding the context open, goes round again only on Continue, and ends out of rounds, cancelled without sending, or with the last reply's verdict |
| TencentCloudSslUpdate.Repeat | pkg/core/ssl-deployer/providers/tencentcloud-ssl-update/tencentcloud_ssl_update.go:115-141 | n copies of one request |
| TencentCloudSslUpdate.Abandon | pkg/core/ssl-deployer/providers/tencentcloud-ssl-update/tencentcloud_ssl_update.go:97-100 | an error or a panic is passed on unchanged |
| TencentCloudSslUpdate.DeployRun | pkg/core/ssl-deployer/providers/tencentcloud-ssl-update/tencentcloud_ssl_update.go:82-101 | a missing certificate id, then an empty resource type list, fail before any request |
| TencentCloudSslUpdate.DeployWay | pkg/core/ssl-deployer/providers/tencentcloud-ssl-update/tencentcloud_ssl_update.go:90-98 | `isReplaced` selects exactly one way: every request belongs to that way, and only the non-replacing way uploads, as its first request |
| TencentCloudSslUpdate.UpdateRunChecksCancellation | pkg/core/ssl-deployer/providers/tencentcloud-ssl-update/tencentcloud_ssl_update.go:103-187 | in the first way, the k-th SDK request follows the k-th observation of an open context, and a cancelled run saw the context closed after its last request |
| TencentCloudSslUpdate.UploadUpdateRunChecksCancellation | pkg/core/ssl-deployer/providers/tencentcloud-ssl-update/tencentcloud_ssl_update.go:189-269 | the same for the second way |
| TencentCloudSslUpdate.DeployChecksCancellation | pkg/core/ssl-deployer/providers/tencentcloud-ssl-update/tencentcloud_ssl_update.go:82-101 | for Deploy as a whole, every SDK request follows an open context, and ctx.Err() is returned only after seeing it closed |
| TencentCloudSslUpdate.SubmitUpdateCertificateInstance | pkg/core/ssl-deployer/providers/tencentcloud-ssl-update/tencentcloud_ssl_update.go:115-141 | the submission loop ends as Loop specifies and sends only copies of the one request |
| TencentCloudSslUpdate.JudgeJob | pkg/core/ssl-deployer/providers/tencentcloud-ssl-update/tencentcloud_ssl_update.go:129-138 | a round's verdict is SubmitStep's |
| TencentCloudSslUpdate.PollUpdateRecordDetail | pkg/core/ssl-deployer/providers/tencentcloud-ssl-update/tencentcloud_ssl_update.go:145-184 | the polling loop ends as Loop specifies and sends only copies of the one query |
| TencentCloudSslUpdate.JudgeRecord | pkg/core/ssl-deployer/providers/tencentcloud-ssl-update/tencentcloud_ssl_update.go:156-179 | a round's verdict is PollStep's |
| TencentCloudSslUpdate.SubmitUploadUpdateCertificateInstance | pkg/core/ssl-deployer/providers/tencentcloud-ssl-update/tencentcloud_ssl_update.go:193-220 | the submission loop ends as Loop specifies and sends only copies of the one request |
| TencentCloudSslUpdate.ReadRecords | pkg/core/ssl-deployer/providers/tencentcloud-ssl-update/tencentcloud_ssl_update.go:240-257 | the record loop leaves the counters FoldRecords specifies |
| TencentCloudSslUpdate.PollUploadUpdateRecordDetail | pkg/core/ssl-deployer/providers/tencentcloud-ssl-update/tencentcloud_ssl_update.go:224-266 | the polling loop ends as Loop specifies and sends only copies of the one query, with limit 200 |
| TencentCloudSslUpdate.JudgeRecordDetail | pkg/core/ssl-deployer/providers/tencentcloud-ssl-update/tencentcloud_ssl_update.go:236-261 | a round's verdict is DetailStep's |
| TencentCloudSslUpdate.ExecuteUpdateCertificateInstance | pkg/core/ssl-deployer/providers/tencentcloud-ssl-update/tencentcloud_ssl_update.go:103-187 | the method's outcome and requests are UpdateRun's |
| TencentCloudSslUpdate.ExecuteUploadUpdateCertificateInstance | pkg/core/ssl-deployer/providers/tencentcloud-ssl-update/tencentcloud_ssl_update.go:189-269 | the method's outcome and requests are UploadUpdateRun's |
| TencentCloudSslUpdate.Deploy | pkg/core/ssl-deployer/providers/tencentcloud-ssl-update/tencentcloud_ssl_update.go:82-101 | the method's outcome and requests are DeployRun's |
| TencentCloudCdn.New | pkg/core/ssl-deployer/providers/tencentcloud-cdn/tencentcloud_cdn.go:45-73 | nil config and constructor errors fail in order, each wrapped; success holds the config and both endpoint choices |
| TencentCloudCdn.Derefs | pkg/core/ssl-deployer/providers/tencentcloud-cdn/tencentcloud_cdn.go:150-155 | the strings behind a pointer list, in order; none exactly when some pointer is nil |
| TencentCloudCdn.DomainsByCertId | pkg/core/ssl-deployer/providers/tencentcloud-cdn/tencentcloud_cdn.go:138-158 | the SDK error is wrapped; a nil list gives no domains; a nil entry panics exactly when present; otherwise every listed domain, in order |
| TencentCloudCdn.GetDomainsByCertId | pkg/core/ssl-deployer/providers/tencentcloud-cdn/tencentcloud_cdn.go:138-158 | the loop returns what DomainsByCertId specifies, after one query for product "cdn" |
| TencentCloudCdn.RebindHttps | pkg/core/ssl-deployer/providers/tencentcloud-cdn/tencentcloud_cdn.go:186-200 | the certificate becomes the uploaded one alone and the SSL status is cleared; a domain without HTTPS gets only the switch on; otherwise every other setting is kept |
| TencentCloudCdn.RebindHttpsBinds | pkg/core/ssl-deployer/providers/tencentcloud-cdn/tencentcloud_cdn.go:180-200 | the rewritten settings are recognised as already bound |
| TencentCloudCdn.UpdateDomainRun | pkg/core/ssl-deployer/providers/tencentcloud-cdn/tencentcloud_cdn.go:160-208 | the query comes first; an SDK error is wrapped; an empty listing is "not found"; a nil first entry panics; a domain already serving the certificate succeeds after the query alone; any other gets one update with the rebound settings, which succeeds when the SDK reports no error and otherwise returns that error wrapped |
| TencentCloudCdn.UpdateDomainIsIdempotent | pkg/core/ssl-deployer/providers/tencentcloud-cdn/tencentcloud_cdn.go:180-184 | once the platform reports the settings sent, a second deployment sends no update and succeeds |
| TencentCloudCdn.DomainsToUpdate | pkg/core/ssl-deployer/providers/tencentcloud-cdn/tencentcloud_cdn.go:98-111 | a wildcard domain is deployed to whatever the lookup by certificate id yields (its error, panic or list); any other domain is deployed to alone |
| TencentCloudCdn.DeployRun | pkg/core/ssl-deployer/providers/tencentcloud-cdn/tencentcloud_cdn.go:85-111 | an empty domain fails before any request; an upload error is wrapped after the single upload; after a successful upload the requests begin with the upload and, for a wildcard domain, the lookup by the uploaded id for product "cdn"; a failed or panicking lookup ends there; success needs a successful upload and lookup |
| TencentCloudCdn.UpdateAllCollectsFailures | pkg/core/ssl-deployer/providers/tencentcloud-cdn/tencentcloud_cdn.go:113-128 | without cancellation or panic every domain is tried in order: the collected errors are the earlier ones followed by the failing domains' errors in domain order, and the requests are each domain's requests in domain order |
| TencentCloudCdn.ErrorsOfEmpty | pkg/core/ssl-deployer/providers/tencentcloud-cdn/tencentcloud_cdn.go:124-132 | no error is collected exactly when no domain's update returned an error |
| TencentCloudCdn.UpdateAllCanceled | pkg/core/ssl-deployer/providers/tencentcloud-cdn/tencentcloud_cdn.go:113-123 | a closed context before some domain cancels the deployment, whatever errors were collected, after the requests of the domains before it |
| TencentCloudCdn.UpdateAllPanics | pkg/core/ssl-deployer/providers/tencentcloud-cdn/tencentcloud_cdn.go:113-125 | a domain whose update panics ends the deployment in that panic, after the requests of the domains up to it |
| TencentCloudCdn.DeploySingleDomain | pkg/core/ssl-deployer/providers/tencentcloud-cdn/tencentcloud_cdn.go:85-136 | for a non-wildcard domain, Deploy uploads, updates that domain, and succeeds exactly when it does; otherwise it returns its error joined |
| TencentCloudCdn.DeploySucceedsIffEveryDomainDoes | pkg/core/ssl-deployer/providers/tencentcloud-cdn/tencentcloud_cdn.go:85-136 | without cancellation or panic, Deploy sends the upload, the wildcard lookup if any, then each domain's requests in domain order; it succeeds exactly when every domain does, and otherwise returns the failing domains' errors, in domain order, joined |
| TencentCloudCdn.DeployWildcardDomain | pkg/core/ssl-deployer/providers/tencentcloud-cdn/tencentcloud_cdn.go:98-136 | for a wildcard domain, the lookup by the uploaded id for product "cdn" follows the upload, and every listed domain is then updated in the order listed, with the joined errors of those that fail |
| TencentCloudCdn.Deploy | pkg/core/ssl-deployer/providers/tencentcloud-cdn/tencentcloud_cdn.go:85-136 | the method's outcome and requests are DeployRun's |
| TencentCloudCdn.UpdateDomainHttpsServerCert | pkg/core/ssl-deployer/providers/tencentcloud-cdn/tencentcloud_cdn.go:160-208 | the statement sequence gives what UpdateDomainRun specifies |
| TencentCloudCss.New | pkg/core/ssl-deployer/providers/tencentcloud-css/tencentcloud_css.go:39-67 | nil config and constructor errors fail in order, each wrapped; success holds the config and both endpoint choices |
| TencentCloudCss.Deploy | pkg/core/ssl-deployer/providers/tencentcloud-css/tencentcloud_css.go:79-109 | an empty domain fails before any request; an upload error is wrapped; otherwise one binding request enables the domain with the uploaded id, and it succeeds exactly when that request does |
| TencentCloudCss.BindingFollowsUpload | pkg/core/ssl-deployer/providers/tencentcloud-css/tencentcloud_css.go:85-101 | every binding request comes second, right after a successful upload, carries its id, and names only the configured domain |
| AliyunDdos.Endpoint | pkg/core/ssl-deployer/providers/aliyun-ddos/aliyun_ddos.go:112-120 | the written-out Hangzhou endpoint and the formatted one are both the service host in the client region |
| AliyunDdos.EndpointDeterminesRegion | pkg/core/ssl-deployer/providers/aliyun-ddos/aliyun_ddos.go:112-120 | the region can be read back from the endpoint; two regions share an endpoint exactly when they name the same region, with "" read as Hangzhou |
| AliyunDdos.SslManagerRegion | pkg/core/ssl-deployer/providers/aliyun-ddos/aliyun_ddos.go:52-59 | Hangzhou exactly for no region or a `cn-` region, Singapore exactly otherwise |
| AliyunDdos.New | pkg/core/ssl-deployer/providers/aliyun-ddos/aliyun_ddos.go:42-71 | nil config and constructor errors fail in order, each wrapped; success holds the config, the endpoint and the manager's credentials and region |
| AliyunDdos.RequestedCertId | pkg/core/ssl-deployer/providers/aliyun-ddos/aliyun_ddos.go:98-101 | the requested id is 0 when the upload id does not parse, and is otherwise the parsed value truncated to 32 bits |
| AliyunDdos.Deploy | pkg/core/ssl-deployer/providers/aliyun-ddos/aliyun_ddos.go:83-110 | an empty domain fails before any request; an upload error is wrapped; otherwise the association request follows the upload and succeeds exactly when that request does |
| AliyunDdos.DeployAssociatesUploadedId | pkg/core/ssl-deployer/providers/aliyun-ddos/aliyun_ddos.go:98-101 | an upload id that is the decimal form of a 32-bit number is associated as exactly that number |
| AliyunDdos.DeployAssociatesZeroForMalformedId | pkg/core/ssl-deployer/providers/aliyun-ddos/aliyun_ddos.go:98-101 | a short upload id that is not a number does not stop the deployment; it is associated as id 0 |
| AliyunDdos.DeployAssociatesMinusOneForOverlongId | pkg/core/ssl-deployer/providers/aliyun-ddos/aliyun_ddos.go:98-101 | an upload id that is a decimal number above the largest int64, unsigned or with `+`, is associated as id -1 |
| AliyunDdos.DeployAssociatesZeroForUnderlongId | pkg/core/ssl-deployer/providers/aliyun-ddos/aliyun_ddos.go:98-101 | an upload id that is a decimal number below the smallest int64 is associated as id 0 |
| AliyunDdos.DeployAssociatesMinusOneForOverflowingPrefix | pkg/core/ssl-deployer/providers/aliyun-ddos/aliyun_ddos.go:98-101 | an upload id whose first twenty characters are digits starting with 2 or more is associated as id -1, whatever follows |
| Kong.BaseUrl | pkg/core/ssl-deployer/providers/kong/kong.go:143-146 | the base URL is the server URL without trailing slashes, then, exactly for a workspace, one path segment that unescapes to the workspace name |
| Kong.BaseUrlIgnoresTrailingSlash | pkg/core/ssl-deployer/providers/kong/kong.go:143 | a trailing slash on the server URL makes no difference |
| Kong.BaseUrlOfPlainWorkspace | pkg/core/ssl-deployer/providers/kong/kong.go:144-146 | a workspace of unreserved characters appears as it is |
| Kong.New | pkg/core/ssl-deployer/providers/kong/kong.go:45-60 | nil config and a client error fail, the latter wrapped; success holds the config, the base URL and the TLS setting |
| Kong.DeployToCertificate | pkg/core/ssl-deployer/providers/kong/kong.go:85-127 | an empty id fails and a parse error is returned as it is, both before any request; otherwise exactly one update carries the id, both PEM texts and the DNS names as SNIs, and it succeeds exactly when that update does |
| Kong.Deploy | pkg/core/ssl-deployer/providers/kong/kong.go:70-83 | only the `certificate` resource type is supported; it deploys as DeployToCertificate |
| Kong.DeploySucceedsIff | pkg/core/ssl-deployer/providers/kong/kong.go:70-127 | success exactly for resource type certificate, an id, a parsable PEM and a successful update; the one request is then the full certificate |
| Kong.WorkspaceOnlyChangesBaseUrl | pkg/core/ssl-deployer/providers/kong/kong.go:96-124 | the workspace chooses only the URL the request goes to; the outcome and the certificate sent are the same |
| GoStrings.TrimRight | pkg/core/ssl-deployer/providers/kong/kong.go:143 | the result is a prefix of the input that does not end with the cut character, and only that character was cut |
| GoStrings.TrimSpace | pkg/core/ssl-deployer/providers/tencentcloud-cdn/tencentcloud_cdn.go:59 | white space is removed from both ends and nothing else |
| GoStrings.TrimSpaceIdempotent | pkg/core/ssl-deployer/providers/tencentcloud-cdn/tencentcloud_cdn.go:59 | trimming twice equals trimming once |
| GoUrl.PathEscape | pkg/core/ssl-deployer/providers/kong/kong.go:145 | the escaped segment has no `/`, and its bytes are the input's UTF-8 bytes with each reserved byte percent-encoded |
| GoUrl.PathEscapeRoundTrip | pkg/core/ssl-deployer/providers/kong/kong.go:145 | unescaping the escaped segment gives back the workspace's UTF-8 bytes |
| GoUrl.UnescapeEscapeBytes | pkg/core/ssl-deployer/providers/kong/kong.go:145 | unescaping undoes escaping for every byte string |
| GoStrconv.Atoi | pkg/core/ssl-deployer/providers/aliyun-ddos/aliyun_ddos.go:98 | the value is always in int64 range and is 0 on a syntax error |
| GoStrconv.AtoiSound | pkg/core/ssl-deployer/providers/aliyun-ddos/aliyun_ddos.go:98 | a successful parse means the input is an optionally signed digit string, and its value is that number |
| GoStrconv.AtoiFormatInt | pkg/core/ssl-deployer/providers/aliyun-ddos/aliyun_ddos.go:98 | parsing the decimal form of any int64 gives it back with no error |
| GoStrconv.AtoiOverflowBeforeGarbage | pkg/core/ssl-deployer/providers/aliyun-ddos/aliyun_ddos.go:98 | twenty leading digits from 2 on overflow, giving the largest int64 and a range error, whatever follows |
| GoStrconv.AtoiOfNumeric | pkg/core/ssl-deployer/providers/aliyun-ddos/aliyun_ddos.go:98 | on an optionally signed decimal number, the value with no error when it fits an int64, and otherwise the nearer int64 bound with a range error |
| GoStrconv.Int32 | pkg/core/ssl-deployer/providers/aliyun-ddos/aliyun_ddos.go:101 | `int32(x)` is congruent to x modulo 2^32 and is x when x fits |
| GoStrconv.Int32OfMaxInt64 | pkg/core/ssl-deployer/providers/aliyun-ddos/aliyun_ddos.go:101 | the largest int64 truncates to -1 |
| GoStrconv.Int32OfMinInt64 | pkg/core/ssl-deployer/providers/aliyun-ddos/aliyun_ddos.go:101 | the smallest int64 truncates to 0 |
| GoStrconv.AddInt64Wraps | pkg/core/ssl-deployer/providers/tencentcloud-ssl-update/tencentcloud_ssl_update.go:177 | the int64 sum `succeededCount+failedCount` wraps modulo 2^64 and is the true sum when that fits |
| GoStrconv.Uint64ToInt64 | pkg/core/ssl-deployer/providers/tencentcloud-ssl-update/tencentcloud_ssl_update.go:215 | `int64(x)` of a uint64 is congruent to x modulo 2^64 and is x when x fits |
| GoStrconv.FormatInt | pkg/core/ssl-deployer/providers/tencentcloud-ssl-update/tencentcloud_ssl_update.go:136 | the `%d` form of a number is ASCII |
| GoStrconv.Utf8OfFormatInt | pkg/core/ssl-deployer/providers/tencentcloud-ssl-update/tencentcloud_ssl_update.go:136 | the `%d` form is an optional minus sign followed by the decimal digits of the magnitude |

## Left out

- Logging (`slog`, `SetLogger`, the logger createDeployer returns) has no effect on what a deployer sends or returns, so it is not modelled.
- Credentials, the HTTP client, TLS transports and timeouts are not modelled. Only the endpoint, base URL and `InsecureSkipVerify` choices are kept.
- The SDKs, the certificate upload manager, `x509` parsing and the access repository are outside the model. Their replies are parameters. The Go field types assumed for those replies are the ones the code dereferences, for example `DeployRecordId` as `uint64` and the counters as `int64`.
- `createDeployer` and the provider deployers it builds are parameters of `Deployer`; the provider deployers modelled here are not connected to it by name.
- The context is a function saying whether its n-th observation finds it closed. The upload manager's own cancellation checks are part of its reply. Kong uses `context.TODO()` and cannot be cancelled; the model has no context there.
- `time.Sleep` between rounds has no observable effect and is not modelled.
- TencentCloudSslUpdate.Loop: the Go loops have no bound. The model gives each loop `fuel` rounds and ends with `OutOfFuel` when they run out, which the Go code never does.
- TencentCloudSslUpdate.JudgeRecordDetail: a nil pointer inside the detail list would make the Go loop panic. The model reads each detail entry as present.
- TencentCloudCdn.UpdateDomainHttpsServerCert: Go rewrites the listed `Https` object in place through its pointer. The model builds the new value. Aliasing is not observable in this code, since the object is only sent.
- TencentCloudCdn.DeployRun: its own contract states the guards, the lookup failures and the requests up to the lookup. What the domain loop does after them is stated by DeploySucceedsIffEveryDomainDoes, DeployWildcardDomain, UpdateAllCanceled and UpdateAllPanics.
- TencentCloudSslUpdate.DeployRun: its own contract states only the guards. What it does after them is stated by DeployWay, DeployChecksCancellation and the method contracts.
- `NodeType`: `deployer.go` compares against `domain.WorkflowNodeTypeDeploy` and converts to `domain.DeployProviderType`. Neither name is declared in `internal/domain/provider.go` at this revision, and the workflow types are not part of this model. The model uses an abstract node type and `Domain.DeploymentProviderType`.
- Kong.Deploy: `kong.go` compares against `RESOURCE_TYPE_CERTIFICATE`, declared in a file that is not part of this model. Its value `"certificate"` is the one the deploy form sends (`ui/src/components/workflow/node/DeployNodeConfigFormKongConfig.tsx:21`).
- The other provider deployers, the notifier and workflow engine, the HTTP API and the UI are not part of this model.

## Findings

| source | as written | input that shows it | evidently intended | confidence | as-written member | corrected member |
|---|---|---|---|---|---|---|
| internal/domain/provider.go:203 | `DeploymentProviderTypeAPISIX` is `AccessProviderTypeAWS + "-apisix"`, that is `"aws-apisix"` | the part before `-` is `"aws"`, the AWS access type, not `"apisix"`; the value also sorts after its neighbour `"aws-acm"`, breaking the ASCII order of the block | `AccessProviderTypeAPISIX`, that is `"apisix"`, which is in order between `"aliyun-waf"` and `"aws-acm"` | not executed; medium | Domain.ApisixDeploymentTypeIsUnderAws | Domain.ApisixIntendedRestoresOrder |
