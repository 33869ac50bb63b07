/**
 * Provider identity registry (internal/domain/provider.go).
 *
 * The five families of provider type constants -- access, certificate
 * authority, ACME DNS-01, deployment and notification -- as sequences of
 * strings in declaration order, together with the two rules the source's doc
 * comments state about them:
 *   - the part of a value before its first `-` is always an access provider
 *     type;
 *   - each family is kept in ASCII order.
 * The first rule holds for every family. The second holds for the
 * certificate authority, ACME DNS-01 and notification families and fails for
 * the access and deployment families; the lemmas below name every adjacent
 * pair that breaks it, and prove that no two constants of a family share a
 * value all the same.
 *
 * The long families are written as concatenations of short blocks so that
 * facts about their elements are checked block by block.
 */
module Domain {

  type AccessProviderType = string
  type CAProviderType = string
  type ACMEDns01ProviderType = string
  type DeploymentProviderType = string
  type NotificationProviderType = string

  // ------------------------------------------------------------------
  // Go's `<` on strings

  /**
   * a and b agree on their first k characters, and there a either ends or
   * has the smaller character.
   */
  predicate LessAt(a: string, b: string, k: int)
  {
    0 <= k <= |a| && k < |b| && a[..k] == b[..k] && (k == |a| || a[k] < b[k])
  }

  /**
   * a < b as Go compares strings: lexicographically, byte by byte. UTF-8
   * preserves code point order, so comparing characters gives the same answer.
   */
  predicate Less(a: string, b: string)
  {
    exists k | 0 <= k <= |a| :: LessAt(a, b, k)
  }

  lemma LessIrreflexive(a: string)
    ensures !Less(a, a)
  {
  }

  lemma LessTransitive(a: string, b: string, c: string)
    requires Less(a, b) && Less(b, c)
    ensures Less(a, c)
  {
    var i :| 0 <= i <= |a| && LessAt(a, b, i);
    var j :| 0 <= j <= |b| && LessAt(b, c, j);
    if i < j {
      assert b[..i] == c[..j][..i] == c[..i];
      assert b[i] == c[..j][i] == c[i];
      assert LessAt(a, c, i);
    } else if j < i {
      assert a[..j] == a[..i][..j] == b[..j];
      assert a[j] == a[..i][j] == b[j];
      assert LessAt(a, c, j);
    } else {
      assert LessAt(a, c, i);
    }
  }

  /** Two strings that agree on their first n characters agree at every i below n. */
  lemma SharedPrefix(a: string, b: string, n: int, i: int)
    ensures 0 <= i < n <= |a| && n <= |b| && a[..n] == b[..n] ==> a[i] == b[i]
  {
    if 0 <= i < n <= |a| && n <= |b| && a[..n] == b[..n] {
      assert a[i] == a[..n][i];
    }
  }

  /** a is not below b when the two agree on their first k characters and there b ends or has the smaller character. */
  lemma NotLessAt(a: string, b: string, k: int)
    requires 0 <= k < |a| && k <= |b| && a[..k] == b[..k]
    requires k == |b| || b[k] < a[k]
    ensures !Less(a, b)
  {
    forall j | 0 <= j <= |a|
      ensures !LessAt(a, b, j)
    {
      SharedPrefix(a, b, k, j);
      SharedPrefix(a, b, j, k);
    }
  }

  // ------------------------------------------------------------------
  // ASCII order and distinct values

  /** The doc comments' rule "keep ASCII order": every constant sorts strictly after the one declared before it. */
  predicate Ordered(s: seq<string>)
  {
    forall i | 0 < i < |s| :: Less(s[i - 1], s[i])
  }

  /** The constant declared at position i sorts before (or equal to) the one declared before it. */
  predicate BreaksOrderAt(s: seq<string>, i: int)
  {
    0 < i < |s| && !Less(s[i - 1], s[i])
  }

  lemma BreakIsNotOrdered(s: seq<string>, i: int)
    requires BreaksOrderAt(s, i)
    ensures !Ordered(s)
  {
    assert !Less(s[i - 1], s[i]);
  }

  /** The positions where s breaks the order, shifted by off, are exactly the members of B. */
  predicate BreaksExactlyFrom(s: seq<string>, off: int, B: set<int>)
  {
    forall i | 0 < i < |s| :: BreaksOrderAt(s, i) <==> off + i in B
  }

  /** Where a + b breaks the order: where a does, where b does, and at the seam exactly when the seam is in B. */
  lemma BreaksAppend(a: seq<string>, b: seq<string>, off: int, B: set<int>)
    requires |a| > 0 && |b| > 0
    requires BreaksExactlyFrom(a, off, B) && BreaksExactlyFrom(b, off + |a|, B)
    requires Less(a[|a| - 1], b[0]) <==> off + |a| !in B
    ensures BreaksExactlyFrom(a + b, off, B)
  {
    forall i | 0 < i < |a + b|
      ensures BreaksOrderAt(a + b, i) <==> off + i in B
    {
      if i < |a| {
        assert BreaksOrderAt(a + b, i) <==> BreaksOrderAt(a, i);
      } else if i > |a| {
        assert BreaksOrderAt(a + b, i) <==> BreaksOrderAt(b, i - |a|);
      }
    }
  }

  /** No two constants share a value. */
  predicate Distinct(s: seq<string>)
  {
    forall i, j | 0 <= i < j < |s| :: s[i] != s[j]
  }

  lemma {:induction false} OrderedChain(s: seq<string>, i: int, j: int)
    requires Ordered(s) && 0 <= i < j < |s|
    ensures Less(s[i], s[j])
    decreases j - i
  {
    if i + 1 < j {
      OrderedChain(s, i, j - 1);
      LessTransitive(s[i], s[j - 1], s[j]);
    }
  }

  lemma OrderedIsDistinct(s: seq<string>)
    requires Ordered(s)
    ensures Distinct(s)
  {
    forall i, j | 0 <= i < j < |s|
      ensures s[i] != s[j]
    {
      OrderedChain(s, i, j);
      LessIrreflexive(s[i]);
    }
  }

  lemma OrderedAppend(a: seq<string>, b: seq<string>)
    requires Ordered(a) && Ordered(b)
    requires |a| == 0 || |b| == 0 || Less(a[|a| - 1], b[0])
    ensures Ordered(a + b)
  {
    forall i | 0 < i < |a + b|
      ensures Less((a + b)[i - 1], (a + b)[i])
    {
      if i < |a| {
        assert Less(a[i - 1], a[i]);
      } else if i > |a| {
        assert Less(b[i - |a| - 1], b[i - |a|]);
      }
    }
  }

  lemma DistinctAppend(a: seq<string>, b: seq<string>)
    requires Distinct(a) && Distinct(b)
    requires forall x | x in b :: x !in a
    ensures Distinct(a + b)
  {
    forall i, j | 0 <= i < j < |a + b|
      ensures (a + b)[i] != (a + b)[j]
    {
      if j >= |a| && i < |a| {
        assert (a + b)[j] in b;
      }
    }
  }

  lemma DistinctCons(s: seq<string>)
    requires |s| > 0
    ensures Distinct(s) <==> Distinct(s[1..]) && s[0] !in s[1..]
  {
    assert forall j | 0 <= j < |s[1..]| :: s[1..][j] == s[j + 1];
  }

  /** The values occurring in s. */
  function Values(s: seq<string>): (r: set<string>)
    ensures forall x :: x in r <==> x in s
  {
    set x | x in s
  }

  /** A sequence has at most as many values as elements, and exactly as many when no two share a value. */
  lemma {:induction false} ValuesCount(s: seq<string>)
    ensures |Values(s)| <= |s|
    ensures |Values(s)| == |s| <==> Distinct(s)
  {
    if |s| > 0 {
      var t := s[1..];
      ValuesCount(t);
      DistinctCons(s);
      assert Values(s) == {s[0]} + Values(t);
      if s[0] in t {
        assert Values(s) == Values(t);
      }
    }
  }

  /**
   * A sequence as long as a duplicate-free one and holding all of its
   * values has no duplicates itself.
   */
  lemma DistinctByCover(s: seq<string>, t: seq<string>)
    requires Distinct(t) && |s| == |t|
    requires forall x | x in t :: x in s
    ensures Distinct(s)
  {
    ValuesCount(s);
    ValuesCount(t);
    assert Values(t) <= Values(s);
    assert |Values(t)| <= |Values(s)| by {
      SubsetCardinality(Values(t), Values(s));
    }
  }

  lemma SubsetCardinality(a: set<string>, b: set<string>)
    requires a <= b
    ensures |a| <= |b|
  {
    assert b == a + (b - a);
  }

  // ------------------------------------------------------------------
  // The access part of a provider type

  /** The part of a provider type value before its first `-` (all of it when there is none). */
  function AccessPart(v: string): (r: string)
    ensures |r| <= |v| && r == v[..|r|]
    ensures '-' !in r
    ensures |r| == |v| || v[|r|] == '-'
  {
    if |v| == 0 || v[0] == '-' then "" else [v[0]] + AccessPart(v[1..])
  }

  /** AccessPart(v) is the only dash-free prefix of v that reaches the end of v or a `-`. */
  lemma {:induction false} AccessPartUnique(v: string, p: string)
    requires |p| <= |v| && p == v[..|p|] && '-' !in p
    requires |p| == |v| || v[|p|] == '-'
    ensures AccessPart(v) == p
  {
    if |v| > 0 && v[0] != '-' {
      assert |p| > 0 && p[0] == v[0];
      AccessPartUnique(v[1..], p[1..]);
    }
  }

  /** v is the access value a, alone or followed by `-` and a suffix. */
  predicate HasAccessPrefix(v: string, a: string)
  {
    v == a || (|a| < |v| && v[..|a|] == a && v[|a|] == '-')
  }

  /** The part of v before its first `-` is an access provider type: v is such a value, alone or followed by `-` and a suffix. */
  predicate PrefixedByAccess(v: string, access: seq<string>)
  {
    exists a | a in access :: HasAccessPrefix(v, a)
  }

  /** When v is a dash-free access value a, possibly followed by `-` and a suffix, its access part is a. */
  lemma AccessPartOfPrefixed(v: string, a: string)
    requires '-' !in a && HasAccessPrefix(v, a)
    ensures AccessPart(v) == a
  {
    AccessPartUnique(v, a);
  }


  // ------------------------------------------------------------------
  // Access provider types (internal/domain/provider.go:12-92)

  const AccessProviderType1Panel: AccessProviderType := "1panel"
  const AccessProviderTypeACMECA: AccessProviderType := "acmeca"
  const AccessProviderTypeACMEHttpReq: AccessProviderType := "acmehttpreq"
  const AccessProviderTypeAkamai: AccessProviderType := "akamai"
  const AccessProviderTypeAliyun: AccessProviderType := "aliyun"
  const AccessProviderTypeAPISIX: AccessProviderType := "apisix"
  const AccessProviderTypeAWS: AccessProviderType := "aws"
  const AccessProviderTypeAzure: AccessProviderType := "azure"
  const AccessProviderTypeBaiduCloud: AccessProviderType := "baiducloud"
  const AccessProviderTypeBaishan: AccessProviderType := "baishan"
  const AccessProviderTypeBaotaPanel: AccessProviderType := "baotapanel"
  const AccessProviderTypeBaotaWAF: AccessProviderType := "baotawaf"
  const AccessProviderTypeBytePlus: AccessProviderType := "byteplus"
  const AccessProviderTypeBunny: AccessProviderType := "bunny"
  const AccessProviderTypeBuypass: AccessProviderType := "buypass"
  const AccessProviderTypeCacheFly: AccessProviderType := "cachefly"
  const AccessProviderTypeCdnfly: AccessProviderType := "cdnfly"
  const AccessProviderTypeCloudflare: AccessProviderType := "cloudflare"
  const AccessProviderTypeClouDNS: AccessProviderType := "cloudns"
  const AccessProviderTypeCMCCCloud: AccessProviderType := "cmcccloud"
  const AccessProviderTypeConstellix: AccessProviderType := "constellix"
  const AccessProviderTypeCTCCCloud: AccessProviderType := "ctcccloud"
  const AccessProviderTypeCUCCCloud: AccessProviderType := "cucccloud"
  const AccessProviderTypeDeSEC: AccessProviderType := "desec"
  const AccessProviderTypeDigitalOcean: AccessProviderType := "digitalocean"
  const AccessProviderTypeDingTalkBot: AccessProviderType := "dingtalkbot"
  const AccessProviderTypeDiscordBot: AccessProviderType := "discordbot"
  const AccessProviderTypeDNSLA: AccessProviderType := "dnsla"
  const AccessProviderTypeDogeCloud: AccessProviderType := "dogecloud"
  const AccessProviderTypeDuckDNS: AccessProviderType := "duckdns"
  const AccessProviderTypeDynv6: AccessProviderType := "dynv6"
  const AccessProviderTypeEdgio: AccessProviderType := "edgio"
  const AccessProviderTypeEmail: AccessProviderType := "email"
  const AccessProviderTypeFastly: AccessProviderType := "fastly"
  const AccessProviderTypeFlexCDN: AccessProviderType := "flexcdn"
  const AccessProviderTypeGname: AccessProviderType := "gname"
  const AccessProviderTypeGcore: AccessProviderType := "gcore"
  const AccessProviderTypeGoDaddy: AccessProviderType := "godaddy"
  const AccessProviderTypeGoEdge: AccessProviderType := "goedge"
  const AccessProviderTypeGoogleTrustServices: AccessProviderType := "googletrustservices"
  const AccessProviderTypeHetzner: AccessProviderType := "hetzner"
  const AccessProviderTypeHuaweiCloud: AccessProviderType := "huaweicloud"
  const AccessProviderTypeJDCloud: AccessProviderType := "jdcloud"
  const AccessProviderTypeKong: AccessProviderType := "kong"
  const AccessProviderTypeKubernetes: AccessProviderType := "k8s"
  const AccessProviderTypeLarkBot: AccessProviderType := "larkbot"
  const AccessProviderTypeLetsEncrypt: AccessProviderType := "letsencrypt"
  const AccessProviderTypeLetsEncryptStaging: AccessProviderType := "letsencryptstaging"
  const AccessProviderTypeLeCDN: AccessProviderType := "lecdn"
  const AccessProviderTypeLocal: AccessProviderType := "local"
  const AccessProviderTypeMattermost: AccessProviderType := "mattermost"
  const AccessProviderTypeNamecheap: AccessProviderType := "namecheap"
  const AccessProviderTypeNameDotCom: AccessProviderType := "namedotcom"
  const AccessProviderTypeNameSilo: AccessProviderType := "namesilo"
  const AccessProviderTypeNetcup: AccessProviderType := "netcup"
  const AccessProviderTypeNetlify: AccessProviderType := "netlify"
  const AccessProviderTypeNS1: AccessProviderType := "ns1"
  const AccessProviderTypePorkbun: AccessProviderType := "porkbun"
  const AccessProviderTypePowerDNS: AccessProviderType := "powerdns"
  const AccessProviderTypeProxmoxVE: AccessProviderType := "proxmoxve"
  const AccessProviderTypeQiniu: AccessProviderType := "qiniu"
  const AccessProviderTypeQingCloud: AccessProviderType := "qingcloud"
  const AccessProviderTypeRainYun: AccessProviderType := "rainyun"
  const AccessProviderTypeRatPanel: AccessProviderType := "ratpanel"
  const AccessProviderTypeSafeLine: AccessProviderType := "safeline"
  const AccessProviderTypeSlackBot: AccessProviderType := "slackbot"
  const AccessProviderTypeSpaceship: AccessProviderType := "spaceship"
  const AccessProviderTypeSSH: AccessProviderType := "ssh"
  const AccessProviderTypeSSLCOM: AccessProviderType := "sslcom"
  const AccessProviderTypeTelegramBot: AccessProviderType := "telegrambot"
  const AccessProviderTypeTencentCloud: AccessProviderType := "tencentcloud"
  const AccessProviderTypeUCloud: AccessProviderType := "ucloud"
  const AccessProviderTypeUniCloud: AccessProviderType := "unicloud"
  const AccessProviderTypeUpyun: AccessProviderType := "upyun"
  const AccessProviderTypeVercel: AccessProviderType := "vercel"
  const AccessProviderTypeVolcEngine: AccessProviderType := "volcengine"
  const AccessProviderTypeWangsu: AccessProviderType := "wangsu"
  const AccessProviderTypeWebhook: AccessProviderType := "webhook"
  const AccessProviderTypeWeComBot: AccessProviderType := "wecombot"
  const AccessProviderTypeWestcn: AccessProviderType := "westcn"
  const AccessProviderTypeZeroSSL: AccessProviderType := "zerossl"

  const AccessBlock0: seq<AccessProviderType> := [AccessProviderType1Panel,
    AccessProviderTypeACMECA, AccessProviderTypeACMEHttpReq, AccessProviderTypeAkamai,
    AccessProviderTypeAliyun, AccessProviderTypeAPISIX, AccessProviderTypeAWS,
    AccessProviderTypeAzure]
  const AccessBlock1: seq<AccessProviderType> := [AccessProviderTypeBaiduCloud,
    AccessProviderTypeBaishan, AccessProviderTypeBaotaPanel, AccessProviderTypeBaotaWAF,
    AccessProviderTypeBytePlus, AccessProviderTypeBunny, AccessProviderTypeBuypass,
    AccessProviderTypeCacheFly]
  const AccessBlock2: seq<AccessProviderType> := [AccessProviderTypeCdnfly,
    AccessProviderTypeCloudflare, AccessProviderTypeClouDNS, AccessProviderTypeCMCCCloud,
    AccessProviderTypeConstellix, AccessProviderTypeCTCCCloud, AccessProviderTypeCUCCCloud,
    AccessProviderTypeDeSEC]
  const AccessBlock3: seq<AccessProviderType> := [AccessProviderTypeDigitalOcean,
    AccessProviderTypeDingTalkBot, AccessProviderTypeDiscordBot, AccessProviderTypeDNSLA,
    AccessProviderTypeDogeCloud, AccessProviderTypeDuckDNS, AccessProviderTypeDynv6,
    AccessProviderTypeEdgio]
  const AccessBlock4: seq<AccessProviderType> := [AccessProviderTypeEmail,
    AccessProviderTypeFastly, AccessProviderTypeFlexCDN, AccessProviderTypeGname,
    AccessProviderTypeGcore, AccessProviderTypeGoDaddy, AccessProviderTypeGoEdge]
  const AccessBlock5: seq<AccessProviderType> := [AccessProviderTypeGoogleTrustServices,
    AccessProviderTypeHetzner, AccessProviderTypeHuaweiCloud, AccessProviderTypeJDCloud,
    AccessProviderTypeKong, AccessProviderTypeKubernetes, AccessProviderTypeLarkBot]
  const AccessBlock6: seq<AccessProviderType> := [AccessProviderTypeLetsEncrypt,
    AccessProviderTypeLetsEncryptStaging, AccessProviderTypeLeCDN, AccessProviderTypeLocal,
    AccessProviderTypeMattermost, AccessProviderTypeNamecheap, AccessProviderTypeNameDotCom]
  const AccessBlock7: seq<AccessProviderType> := [AccessProviderTypeNameSilo,
    AccessProviderTypeNetcup, AccessProviderTypeNetlify, AccessProviderTypeNS1,
    AccessProviderTypePorkbun, AccessProviderTypePowerDNS, AccessProviderTypeProxmoxVE]
  const AccessBlock8: seq<AccessProviderType> := [AccessProviderTypeQiniu,
    AccessProviderTypeQingCloud, AccessProviderTypeRainYun, AccessProviderTypeRatPanel,
    AccessProviderTypeSafeLine, AccessProviderTypeSlackBot, AccessProviderTypeSpaceship]
  const AccessBlock9: seq<AccessProviderType> := [AccessProviderTypeSSH, AccessProviderTypeSSLCOM,
    AccessProviderTypeTelegramBot, AccessProviderTypeTencentCloud, AccessProviderTypeUCloud,
    AccessProviderTypeUniCloud, AccessProviderTypeUpyun]
  const AccessBlock10: seq<AccessProviderType> := [AccessProviderTypeVercel,
    AccessProviderTypeVolcEngine, AccessProviderTypeWangsu, AccessProviderTypeWebhook,
    AccessProviderTypeWeComBot, AccessProviderTypeWestcn, AccessProviderTypeZeroSSL]

  /** All access provider types, in declaration order. */
  const AccessProviderTypes: seq<AccessProviderType> :=
    AccessBlock0 + AccessBlock1 + AccessBlock2 + AccessBlock3 + AccessBlock4 + AccessBlock5 +
    AccessBlock6 + AccessBlock7 + AccessBlock8 + AccessBlock9 + AccessBlock10

  const AccessSortedBlock0: seq<AccessProviderType> := [AccessProviderType1Panel,
    AccessProviderTypeACMECA, AccessProviderTypeACMEHttpReq, AccessProviderTypeAkamai,
    AccessProviderTypeAliyun, AccessProviderTypeAPISIX, AccessProviderTypeAWS,
    AccessProviderTypeAzure]
  const AccessSortedBlock1: seq<AccessProviderType> := [AccessProviderTypeBaiduCloud,
    AccessProviderTypeBaishan, AccessProviderTypeBaotaPanel, AccessProviderTypeBaotaWAF,
    AccessProviderTypeBunny, AccessProviderTypeBuypass, AccessProviderTypeBytePlus,
    AccessProviderTypeCacheFly]
  const AccessSortedBlock2: seq<AccessProviderType> := [AccessProviderTypeCdnfly,
    AccessProviderTypeCloudflare, AccessProviderTypeClouDNS, AccessProviderTypeCMCCCloud,
    AccessProviderTypeConstellix, AccessProviderTypeCTCCCloud, AccessProviderTypeCUCCCloud,
    AccessProviderTypeDeSEC]
  const AccessSortedBlock3: seq<AccessProviderType> := [AccessProviderTypeDigitalOcean,
    AccessProviderTypeDingTalkBot, AccessProviderTypeDiscordBot, AccessProviderTypeDNSLA,
    AccessProviderTypeDogeCloud, AccessProviderTypeDuckDNS, AccessProviderTypeDynv6,
    AccessProviderTypeEdgio]
  const AccessSortedBlock4: seq<AccessProviderType> := [AccessProviderTypeEmail,
    AccessProviderTypeFastly, AccessProviderTypeFlexCDN, AccessProviderTypeGcore,
    AccessProviderTypeGname, AccessProviderTypeGoDaddy, AccessProviderTypeGoEdge]
  const AccessSortedBlock5: seq<AccessProviderType> := [AccessProviderTypeGoogleTrustServices,
    AccessProviderTypeHetzner, AccessProviderTypeHuaweiCloud, AccessProviderTypeJDCloud,
    AccessProviderTypeKubernetes, AccessProviderTypeKong, AccessProviderTypeLarkBot]
  const AccessSortedBlock6: seq<AccessProviderType> := [AccessProviderTypeLeCDN,
    AccessProviderTypeLetsEncrypt, AccessProviderTypeLetsEncryptStaging, AccessProviderTypeLocal,
    AccessProviderTypeMattermost, AccessProviderTypeNamecheap, AccessProviderTypeNameDotCom]
  const AccessSortedBlock7: seq<AccessProviderType> := [AccessProviderTypeNameSilo,
    AccessProviderTypeNetcup, AccessProviderTypeNetlify, AccessProviderTypeNS1,
    AccessProviderTypePorkbun, AccessProviderTypePowerDNS, AccessProviderTypeProxmoxVE]
  const AccessSortedBlock8: seq<AccessProviderType> := [AccessProviderTypeQingCloud,
    AccessProviderTypeQiniu, AccessProviderTypeRainYun, AccessProviderTypeRatPanel,
    AccessProviderTypeSafeLine, AccessProviderTypeSlackBot, AccessProviderTypeSpaceship]
  const AccessSortedBlock9: seq<AccessProviderType> := [AccessProviderTypeSSH,
    AccessProviderTypeSSLCOM, AccessProviderTypeTelegramBot, AccessProviderTypeTencentCloud,
    AccessProviderTypeUCloud, AccessProviderTypeUniCloud, AccessProviderTypeUpyun]
  const AccessSortedBlock10: seq<AccessProviderType> := [AccessProviderTypeVercel,
    AccessProviderTypeVolcEngine, AccessProviderTypeWangsu, AccessProviderTypeWebhook,
    AccessProviderTypeWeComBot, AccessProviderTypeWestcn, AccessProviderTypeZeroSSL]

  /** The same access provider types, in ASCII order. */
  const AccessProviderTypesInAsciiOrder: seq<AccessProviderType> :=
    AccessSortedBlock0 + AccessSortedBlock1 + AccessSortedBlock2 + AccessSortedBlock3 +
    AccessSortedBlock4 + AccessSortedBlock5 + AccessSortedBlock6 + AccessSortedBlock7 +
    AccessSortedBlock8 + AccessSortedBlock9 + AccessSortedBlock10

  lemma AccessSortedBlock0Ordered()
    ensures Ordered(AccessSortedBlock0)
    ensures forall x | x in AccessSortedBlock0 :: x in AccessProviderTypes
  {
    assert LessAt(AccessProviderType1Panel, AccessProviderTypeACMECA, 0);
    assert LessAt(AccessProviderTypeACMECA, AccessProviderTypeACMEHttpReq, 4);
    assert LessAt(AccessProviderTypeACMEHttpReq, AccessProviderTypeAkamai, 1);
    assert LessAt(AccessProviderTypeAkamai, AccessProviderTypeAliyun, 1);
    assert LessAt(AccessProviderTypeAliyun, AccessProviderTypeAPISIX, 1);
    assert LessAt(AccessProviderTypeAPISIX, AccessProviderTypeAWS, 1);
    assert LessAt(AccessProviderTypeAWS, AccessProviderTypeAzure, 1);
  }

  lemma AccessSortedBlock1Ordered()
    ensures Ordered(AccessSortedBlock1)
    ensures forall x | x in AccessSortedBlock1 :: x in AccessProviderTypes
  {
    assert LessAt(AccessProviderTypeBaiduCloud, AccessProviderTypeBaishan, 3);
    assert LessAt(AccessProviderTypeBaishan, AccessProviderTypeBaotaPanel, 2);
    assert LessAt(AccessProviderTypeBaotaPanel, AccessProviderTypeBaotaWAF, 5);
    assert LessAt(AccessProviderTypeBaotaWAF, AccessProviderTypeBunny, 1);
    assert LessAt(AccessProviderTypeBunny, AccessProviderTypeBuypass, 2);
    assert LessAt(AccessProviderTypeBuypass, AccessProviderTypeBytePlus, 1);
    assert LessAt(AccessProviderTypeBytePlus, AccessProviderTypeCacheFly, 0);
  }

  lemma AccessSortedBlock2Ordered()
    ensures Ordered(AccessSortedBlock2)
    ensures forall x | x in AccessSortedBlock2 :: x in AccessProviderTypes
  {
    assert LessAt(AccessProviderTypeCdnfly, AccessProviderTypeCloudflare, 1);
    assert LessAt(AccessProviderTypeCloudflare, AccessProviderTypeClouDNS, 5);
    assert LessAt(AccessProviderTypeClouDNS, AccessProviderTypeCMCCCloud, 1);
    assert LessAt(AccessProviderTypeCMCCCloud, AccessProviderTypeConstellix, 1);
    assert LessAt(AccessProviderTypeConstellix, AccessProviderTypeCTCCCloud, 1);
    assert LessAt(AccessProviderTypeCTCCCloud, AccessProviderTypeCUCCCloud, 1);
    assert LessAt(AccessProviderTypeCUCCCloud, AccessProviderTypeDeSEC, 0);
  }

  lemma AccessSortedBlock3Ordered()
    ensures Ordered(AccessSortedBlock3)
    ensures forall x | x in AccessSortedBlock3 :: x in AccessProviderTypes
  {
    assert LessAt(AccessProviderTypeDigitalOcean, AccessProviderTypeDingTalkBot, 2);
    assert LessAt(AccessProviderTypeDingTalkBot, AccessProviderTypeDiscordBot, 2);
    assert LessAt(AccessProviderTypeDiscordBot, AccessProviderTypeDNSLA, 1);
    assert LessAt(AccessProviderTypeDNSLA, AccessProviderTypeDogeCloud, 1);
    assert LessAt(AccessProviderTypeDogeCloud, AccessProviderTypeDuckDNS, 1);
    assert LessAt(AccessProviderTypeDuckDNS, AccessProviderTypeDynv6, 1);
    assert LessAt(AccessProviderTypeDynv6, AccessProviderTypeEdgio, 0);
  }

  lemma AccessSortedBlock4Ordered()
    ensures Ordered(AccessSortedBlock4)
    ensures forall x | x in AccessSortedBlock4 :: x in AccessProviderTypes
  {
    assert LessAt(AccessProviderTypeEmail, AccessProviderTypeFastly, 0);
    assert LessAt(AccessProviderTypeFastly, AccessProviderTypeFlexCDN, 1);
    assert LessAt(AccessProviderTypeFlexCDN, AccessProviderTypeGcore, 0);
    assert LessAt(AccessProviderTypeGcore, AccessProviderTypeGname, 1);
    assert LessAt(AccessProviderTypeGname, AccessProviderTypeGoDaddy, 1);
    assert LessAt(AccessProviderTypeGoDaddy, AccessProviderTypeGoEdge, 2);
  }

  lemma AccessSortedBlock5Ordered()
    ensures Ordered(AccessSortedBlock5)
    ensures forall x | x in AccessSortedBlock5 :: x in AccessProviderTypes
  {
    assert LessAt(AccessProviderTypeGoogleTrustServices, AccessProviderTypeHetzner, 0);
    assert LessAt(AccessProviderTypeHetzner, AccessProviderTypeHuaweiCloud, 1);
    assert LessAt(AccessProviderTypeHuaweiCloud, AccessProviderTypeJDCloud, 0);
    assert LessAt(AccessProviderTypeJDCloud, AccessProviderTypeKubernetes, 0);
    assert LessAt(AccessProviderTypeKubernetes, AccessProviderTypeKong, 1);
    assert LessAt(AccessProviderTypeKong, AccessProviderTypeLarkBot, 0);
  }

  lemma AccessSortedBlock6Ordered()
    ensures Ordered(AccessSortedBlock6)
    ensures forall x | x in AccessSortedBlock6 :: x in AccessProviderTypes
  {
    assert LessAt(AccessProviderTypeLeCDN, AccessProviderTypeLetsEncrypt, 2);
    assert LessAt(AccessProviderTypeLetsEncrypt, AccessProviderTypeLetsEncryptStaging, 11);
    assert LessAt(AccessProviderTypeLetsEncryptStaging, AccessProviderTypeLocal, 1);
    assert LessAt(AccessProviderTypeLocal, AccessProviderTypeMattermost, 0);
    assert LessAt(AccessProviderTypeMattermost, AccessProviderTypeNamecheap, 0);
    assert LessAt(AccessProviderTypeNamecheap, AccessProviderTypeNameDotCom, 4);
  }

  lemma AccessSortedBlock7Ordered()
    ensures Ordered(AccessSortedBlock7)
    ensures forall x | x in AccessSortedBlock7 :: x in AccessProviderTypes
  {
    assert LessAt(AccessProviderTypeNameSilo, AccessProviderTypeNetcup, 1);
    assert LessAt(AccessProviderTypeNetcup, AccessProviderTypeNetlify, 3);
    assert LessAt(AccessProviderTypeNetlify, AccessProviderTypeNS1, 1);
    assert LessAt(AccessProviderTypeNS1, AccessProviderTypePorkbun, 0);
    assert LessAt(AccessProviderTypePorkbun, AccessProviderTypePowerDNS, 2);
    assert LessAt(AccessProviderTypePowerDNS, AccessProviderTypeProxmoxVE, 1);
  }

  lemma AccessSortedBlock8Ordered()
    ensures Ordered(AccessSortedBlock8)
    ensures forall x | x in AccessSortedBlock8 :: x in AccessProviderTypes
  {
    assert LessAt(AccessProviderTypeQingCloud, AccessProviderTypeQiniu, 3);
    assert LessAt(AccessProviderTypeQiniu, AccessProviderTypeRainYun, 0);
    assert LessAt(AccessProviderTypeRainYun, AccessProviderTypeRatPanel, 2);
    assert LessAt(AccessProviderTypeRatPanel, AccessProviderTypeSafeLine, 0);
    assert LessAt(AccessProviderTypeSafeLine, AccessProviderTypeSlackBot, 1);
    assert LessAt(AccessProviderTypeSlackBot, AccessProviderTypeSpaceship, 1);
  }

  lemma AccessSortedBlock9Ordered()
    ensures Ordered(AccessSortedBlock9)
    ensures forall x | x in AccessSortedBlock9 :: x in AccessProviderTypes
  {
    assert LessAt(AccessProviderTypeSSH, AccessProviderTypeSSLCOM, 2);
    assert LessAt(AccessProviderTypeSSLCOM, AccessProviderTypeTelegramBot, 0);
    assert LessAt(AccessProviderTypeTelegramBot, AccessProviderTypeTencentCloud, 2);
    assert LessAt(AccessProviderTypeTencentCloud, AccessProviderTypeUCloud, 0);
    assert LessAt(AccessProviderTypeUCloud, AccessProviderTypeUniCloud, 1);
    assert LessAt(AccessProviderTypeUniCloud, AccessProviderTypeUpyun, 1);
  }

  lemma AccessSortedBlock10Ordered()
    ensures Ordered(AccessSortedBlock10)
    ensures forall x | x in AccessSortedBlock10 :: x in AccessProviderTypes
  {
    assert LessAt(AccessProviderTypeVercel, AccessProviderTypeVolcEngine, 1);
    assert LessAt(AccessProviderTypeVolcEngine, AccessProviderTypeWangsu, 0);
    assert LessAt(AccessProviderTypeWangsu, AccessProviderTypeWebhook, 1);
    assert LessAt(AccessProviderTypeWebhook, AccessProviderTypeWeComBot, 2);
    assert LessAt(AccessProviderTypeWeComBot, AccessProviderTypeWestcn, 2);
    assert LessAt(AccessProviderTypeWestcn, AccessProviderTypeZeroSSL, 0);
  }

  lemma AccessProviderTypesInAsciiOrderOrdered()
    ensures Ordered(AccessProviderTypesInAsciiOrder)
  {
    AccessSortedBlock0Ordered();
    AccessSortedBlock1Ordered();
    assert LessAt(AccessProviderTypeAzure, AccessProviderTypeBaiduCloud, 0);
    OrderedAppend(AccessSortedBlock0, AccessSortedBlock1);
    AccessSortedBlock2Ordered();
    assert LessAt(AccessProviderTypeCacheFly, AccessProviderTypeCdnfly, 1);
    OrderedAppend(AccessSortedBlock0 + AccessSortedBlock1, AccessSortedBlock2);
    AccessSortedBlock3Ordered();
    assert LessAt(AccessProviderTypeDeSEC, AccessProviderTypeDigitalOcean, 1);
    OrderedAppend(AccessSortedBlock0 + AccessSortedBlock1 + AccessSortedBlock2, AccessSortedBlock3);
    AccessSortedBlock4Ordered();
    assert LessAt(AccessProviderTypeEdgio, AccessProviderTypeEmail, 1);
    OrderedAppend(AccessSortedBlock0 + AccessSortedBlock1 + AccessSortedBlock2 + AccessSortedBlock3, AccessSortedBlock4);
    AccessSortedBlock5Ordered();
    assert LessAt(AccessProviderTypeGoEdge, AccessProviderTypeGoogleTrustServices, 2);
    OrderedAppend(AccessSortedBlock0 + AccessSortedBlock1 + AccessSortedBlock2 + AccessSortedBlock3 + AccessSortedBlock4, AccessSortedBlock5);
    AccessSortedBlock6Ordered();
    assert LessAt(AccessProviderTypeLarkBot, AccessProviderTypeLeCDN, 1);
    OrderedAppend(AccessSortedBlock0 + AccessSortedBlock1 + AccessSortedBlock2 + AccessSortedBlock3 + AccessSortedBlock4 + AccessSortedBlock5, AccessSortedBlock6);
    AccessSortedBlock7Ordered();
    assert LessAt(AccessProviderTypeNameDotCom, AccessProviderTypeNameSilo, 4);
    OrderedAppend(AccessSortedBlock0 + AccessSortedBlock1 + AccessSortedBlock2 + AccessSortedBlock3 + AccessSortedBlock4 + AccessSortedBlock5 + AccessSortedBlock6, AccessSortedBlock7);
    AccessSortedBlock8Ordered();
    assert LessAt(AccessProviderTypeProxmoxVE, AccessProviderTypeQingCloud, 0);
    OrderedAppend(AccessSortedBlock0 + AccessSortedBlock1 + AccessSortedBlock2 + AccessSortedBlock3 + AccessSortedBlock4 + AccessSortedBlock5 + AccessSortedBlock6 + AccessSortedBlock7, AccessSortedBlock8);
    AccessSortedBlock9Ordered();
    assert LessAt(AccessProviderTypeSpaceship, AccessProviderTypeSSH, 1);
    OrderedAppend(AccessSortedBlock0 + AccessSortedBlock1 + AccessSortedBlock2 + AccessSortedBlock3 + AccessSortedBlock4 + AccessSortedBlock5 + AccessSortedBlock6 + AccessSortedBlock7 + AccessSortedBlock8, AccessSortedBlock9);
    AccessSortedBlock10Ordered();
    assert LessAt(AccessProviderTypeUpyun, AccessProviderTypeVercel, 0);
    OrderedAppend(AccessSortedBlock0 + AccessSortedBlock1 + AccessSortedBlock2 + AccessSortedBlock3 + AccessSortedBlock4 + AccessSortedBlock5 + AccessSortedBlock6 + AccessSortedBlock7 + AccessSortedBlock8 + AccessSortedBlock9, AccessSortedBlock10);
  }

  lemma AccessBlock0Facts()
    ensures forall a | a in AccessBlock0 :: '-' !in a
    ensures forall x | x in AccessBlock0 :: x in AccessProviderTypesInAsciiOrder
  {
  }

  lemma AccessBlock1Facts()
    ensures forall a | a in AccessBlock1 :: '-' !in a
    ensures forall x | x in AccessBlock1 :: x in AccessProviderTypesInAsciiOrder
  {
  }

  lemma AccessBlock2Facts()
    ensures forall a | a in AccessBlock2 :: '-' !in a
    ensures forall x | x in AccessBlock2 :: x in AccessProviderTypesInAsciiOrder
  {
  }

  lemma AccessBlock3Facts()
    ensures forall a | a in AccessBlock3 :: '-' !in a
    ensures forall x | x in AccessBlock3 :: x in AccessProviderTypesInAsciiOrder
  {
  }

  lemma AccessBlock4Facts()
    ensures forall a | a in AccessBlock4 :: '-' !in a
    ensures forall x | x in AccessBlock4 :: x in AccessProviderTypesInAsciiOrder
  {
  }

  lemma AccessBlock5Facts()
    ensures forall a | a in AccessBlock5 :: '-' !in a
    ensures forall x | x in AccessBlock5 :: x in AccessProviderTypesInAsciiOrder
  {
  }

  lemma AccessBlock6Facts()
    ensures forall a | a in AccessBlock6 :: '-' !in a
    ensures forall x | x in AccessBlock6 :: x in AccessProviderTypesInAsciiOrder
  {
  }

  lemma AccessBlock7Facts()
    ensures forall a | a in AccessBlock7 :: '-' !in a
    ensures forall x | x in AccessBlock7 :: x in AccessProviderTypesInAsciiOrder
  {
  }

  lemma AccessBlock8Facts()
    ensures forall a | a in AccessBlock8 :: '-' !in a
    ensures forall x | x in AccessBlock8 :: x in AccessProviderTypesInAsciiOrder
  {
  }

  lemma AccessBlock9Facts()
    ensures forall a | a in AccessBlock9 :: '-' !in a
    ensures forall x | x in AccessBlock9 :: x in AccessProviderTypesInAsciiOrder
  {
  }

  lemma AccessBlock10Facts()
    ensures forall a | a in AccessBlock10 :: '-' !in a
    ensures forall x | x in AccessBlock10 :: x in AccessProviderTypesInAsciiOrder
  {
  }

  /** No access provider type contains a `-`. */
  lemma AccessProviderTypesHaveNoDash()
    ensures forall a | a in AccessProviderTypes :: '-' !in a
  {
    AccessBlock0Facts();
    AccessBlock1Facts();
    AccessBlock2Facts();
    AccessBlock3Facts();
    AccessBlock4Facts();
    AccessBlock5Facts();
    AccessBlock6Facts();
    AccessBlock7Facts();
    AccessBlock8Facts();
    AccessBlock9Facts();
    AccessBlock10Facts();
  }

  /** The ASCII-ordered list holds exactly the declared access provider types. */
  lemma AccessProviderTypesInAsciiOrderIsRearrangement()
    ensures |AccessProviderTypesInAsciiOrder| == |AccessProviderTypes|
    ensures forall x :: x in AccessProviderTypesInAsciiOrder <==> x in AccessProviderTypes
  {
    AccessSortedBlock0Ordered();
    AccessSortedBlock1Ordered();
    AccessSortedBlock2Ordered();
    AccessSortedBlock3Ordered();
    AccessSortedBlock4Ordered();
    AccessSortedBlock5Ordered();
    AccessSortedBlock6Ordered();
    AccessSortedBlock7Ordered();
    AccessSortedBlock8Ordered();
    AccessSortedBlock9Ordered();
    AccessSortedBlock10Ordered();
    AccessBlock0Facts();
    AccessBlock1Facts();
    AccessBlock2Facts();
    AccessBlock3Facts();
    AccessBlock4Facts();
    AccessBlock5Facts();
    AccessBlock6Facts();
    AccessBlock7Facts();
    AccessBlock8Facts();
    AccessBlock9Facts();
    AccessBlock10Facts();
  }

  /** No two access provider types share a value. */
  lemma AccessProviderTypesDistinct()
    ensures Distinct(AccessProviderTypes)
  {
    AccessProviderTypesInAsciiOrderOrdered();
    OrderedIsDistinct(AccessProviderTypesInAsciiOrder);
    AccessProviderTypesInAsciiOrderIsRearrangement();
    DistinctByCover(AccessProviderTypes, AccessProviderTypesInAsciiOrder);
  }

  /** The positions at which the declared access family breaks its order. */
  const AccessBreaks: set<int> := {13, 36, 44, 48, 61}

  lemma AccessBlock0Breaks()
    ensures BreaksExactlyFrom(AccessBlock0, 0, AccessBreaks)
  {
    assert LessAt(AccessProviderType1Panel, AccessProviderTypeACMECA, 0);
    assert LessAt(AccessProviderTypeACMECA, AccessProviderTypeACMEHttpReq, 4);
    assert LessAt(AccessProviderTypeACMEHttpReq, AccessProviderTypeAkamai, 1);
    assert LessAt(AccessProviderTypeAkamai, AccessProviderTypeAliyun, 1);
    assert LessAt(AccessProviderTypeAliyun, AccessProviderTypeAPISIX, 1);
    assert LessAt(AccessProviderTypeAPISIX, AccessProviderTypeAWS, 1);
    assert LessAt(AccessProviderTypeAWS, AccessProviderTypeAzure, 1);
  }

  lemma AccessBlock1Breaks()
    ensures BreaksExactlyFrom(AccessBlock1, 8, AccessBreaks)
  {
    assert LessAt(AccessProviderTypeBaiduCloud, AccessProviderTypeBaishan, 3);
    assert LessAt(AccessProviderTypeBaishan, AccessProviderTypeBaotaPanel, 2);
    assert LessAt(AccessProviderTypeBaotaPanel, AccessProviderTypeBaotaWAF, 5);
    assert LessAt(AccessProviderTypeBaotaWAF, AccessProviderTypeBytePlus, 1);
    NotLessAt(AccessProviderTypeBytePlus, AccessProviderTypeBunny, 1);
    assert LessAt(AccessProviderTypeBunny, AccessProviderTypeBuypass, 2);
    assert LessAt(AccessProviderTypeBuypass, AccessProviderTypeCacheFly, 0);
  }

  lemma AccessBlock2Breaks()
    ensures BreaksExactlyFrom(AccessBlock2, 16, AccessBreaks)
  {
    assert LessAt(AccessProviderTypeCdnfly, AccessProviderTypeCloudflare, 1);
    assert LessAt(AccessProviderTypeCloudflare, AccessProviderTypeClouDNS, 5);
    assert LessAt(AccessProviderTypeClouDNS, AccessProviderTypeCMCCCloud, 1);
    assert LessAt(AccessProviderTypeCMCCCloud, AccessProviderTypeConstellix, 1);
    assert LessAt(AccessProviderTypeConstellix, AccessProviderTypeCTCCCloud, 1);
    assert LessAt(AccessProviderTypeCTCCCloud, AccessProviderTypeCUCCCloud, 1);
    assert LessAt(AccessProviderTypeCUCCCloud, AccessProviderTypeDeSEC, 0);
  }

  lemma AccessBlock3Breaks()
    ensures BreaksExactlyFrom(AccessBlock3, 24, AccessBreaks)
  {
    assert LessAt(AccessProviderTypeDigitalOcean, AccessProviderTypeDingTalkBot, 2);
    assert LessAt(AccessProviderTypeDingTalkBot, AccessProviderTypeDiscordBot, 2);
    assert LessAt(AccessProviderTypeDiscordBot, AccessProviderTypeDNSLA, 1);
    assert LessAt(AccessProviderTypeDNSLA, AccessProviderTypeDogeCloud, 1);
    assert LessAt(AccessProviderTypeDogeCloud, AccessProviderTypeDuckDNS, 1);
    assert LessAt(AccessProviderTypeDuckDNS, AccessProviderTypeDynv6, 1);
    assert LessAt(AccessProviderTypeDynv6, AccessProviderTypeEdgio, 0);
  }

  lemma AccessBlock4Breaks()
    ensures BreaksExactlyFrom(AccessBlock4, 32, AccessBreaks)
  {
    assert LessAt(AccessProviderTypeEmail, AccessProviderTypeFastly, 0);
    assert LessAt(AccessProviderTypeFastly, AccessProviderTypeFlexCDN, 1);
    assert LessAt(AccessProviderTypeFlexCDN, AccessProviderTypeGname, 0);
    NotLessAt(AccessProviderTypeGname, AccessProviderTypeGcore, 1);
    assert LessAt(AccessProviderTypeGcore, AccessProviderTypeGoDaddy, 1);
    assert LessAt(AccessProviderTypeGoDaddy, AccessProviderTypeGoEdge, 2);
  }

  lemma AccessBlock5Breaks()
    ensures BreaksExactlyFrom(AccessBlock5, 39, AccessBreaks)
  {
    assert LessAt(AccessProviderTypeGoogleTrustServices, AccessProviderTypeHetzner, 0);
    assert LessAt(AccessProviderTypeHetzner, AccessProviderTypeHuaweiCloud, 1);
    assert LessAt(AccessProviderTypeHuaweiCloud, AccessProviderTypeJDCloud, 0);
    assert LessAt(AccessProviderTypeJDCloud, AccessProviderTypeKong, 0);
    NotLessAt(AccessProviderTypeKong, AccessProviderTypeKubernetes, 1);
    assert LessAt(AccessProviderTypeKubernetes, AccessProviderTypeLarkBot, 0);
  }

  lemma AccessBlock6Breaks()
    ensures BreaksExactlyFrom(AccessBlock6, 46, AccessBreaks)
  {
    assert LessAt(AccessProviderTypeLetsEncrypt, AccessProviderTypeLetsEncryptStaging, 11);
    NotLessAt(AccessProviderTypeLetsEncryptStaging, AccessProviderTypeLeCDN, 2);
    assert LessAt(AccessProviderTypeLeCDN, AccessProviderTypeLocal, 1);
    assert LessAt(AccessProviderTypeLocal, AccessProviderTypeMattermost, 0);
    assert LessAt(AccessProviderTypeMattermost, AccessProviderTypeNamecheap, 0);
    assert LessAt(AccessProviderTypeNamecheap, AccessProviderTypeNameDotCom, 4);
  }

  lemma AccessBlock7Breaks()
    ensures BreaksExactlyFrom(AccessBlock7, 53, AccessBreaks)
  {
    assert LessAt(AccessProviderTypeNameSilo, AccessProviderTypeNetcup, 1);
    assert LessAt(AccessProviderTypeNetcup, AccessProviderTypeNetlify, 3);
    assert LessAt(AccessProviderTypeNetlify, AccessProviderTypeNS1, 1);
    assert LessAt(AccessProviderTypeNS1, AccessProviderTypePorkbun, 0);
    assert LessAt(AccessProviderTypePorkbun, AccessProviderTypePowerDNS, 2);
    assert LessAt(AccessProviderTypePowerDNS, AccessProviderTypeProxmoxVE, 1);
  }

  lemma AccessBlock8Breaks()
    ensures BreaksExactlyFrom(AccessBlock8, 60, AccessBreaks)
  {
    NotLessAt(AccessProviderTypeQiniu, AccessProviderTypeQingCloud, 3);
    assert LessAt(AccessProviderTypeQingCloud, AccessProviderTypeRainYun, 0);
    assert LessAt(AccessProviderTypeRainYun, AccessProviderTypeRatPanel, 2);
    assert LessAt(AccessProviderTypeRatPanel, AccessProviderTypeSafeLine, 0);
    assert LessAt(AccessProviderTypeSafeLine, AccessProviderTypeSlackBot, 1);
    assert LessAt(AccessProviderTypeSlackBot, AccessProviderTypeSpaceship, 1);
  }

  lemma AccessBlock9Breaks()
    ensures BreaksExactlyFrom(AccessBlock9, 67, AccessBreaks)
  {
    assert LessAt(AccessProviderTypeSSH, AccessProviderTypeSSLCOM, 2);
    assert LessAt(AccessProviderTypeSSLCOM, AccessProviderTypeTelegramBot, 0);
    assert LessAt(AccessProviderTypeTelegramBot, AccessProviderTypeTencentCloud, 2);
    assert LessAt(AccessProviderTypeTencentCloud, AccessProviderTypeUCloud, 0);
    assert LessAt(AccessProviderTypeUCloud, AccessProviderTypeUniCloud, 1);
    assert LessAt(AccessProviderTypeUniCloud, AccessProviderTypeUpyun, 1);
  }

  lemma AccessBlock10Breaks()
    ensures BreaksExactlyFrom(AccessBlock10, 74, AccessBreaks)
  {
    assert LessAt(AccessProviderTypeVercel, AccessProviderTypeVolcEngine, 1);
    assert LessAt(AccessProviderTypeVolcEngine, AccessProviderTypeWangsu, 0);
    assert LessAt(AccessProviderTypeWangsu, AccessProviderTypeWebhook, 1);
    assert LessAt(AccessProviderTypeWebhook, AccessProviderTypeWeComBot, 2);
    assert LessAt(AccessProviderTypeWeComBot, AccessProviderTypeWestcn, 2);
    assert LessAt(AccessProviderTypeWestcn, AccessProviderTypeZeroSSL, 0);
  }

  /** The declared access family up to block 2 breaks its order exactly at the positions listed. */
  lemma AccessPrefix2Breaks()
    ensures BreaksExactlyFrom(AccessBlock0 + AccessBlock1 + AccessBlock2, 0, AccessBreaks)
  {
    AccessBlock0Breaks();
    AccessBlock1Breaks();
    assert LessAt(AccessProviderTypeAzure, AccessProviderTypeBaiduCloud, 0);
    BreaksAppend(AccessBlock0, AccessBlock1, 0, AccessBreaks);
    AccessBlock2Breaks();
    assert LessAt(AccessProviderTypeCacheFly, AccessProviderTypeCdnfly, 1);
    BreaksAppend(AccessBlock0 + AccessBlock1, AccessBlock2, 0, AccessBreaks);
  }

  /** The declared access family up to block 4 breaks its order exactly at the positions listed. */
  lemma AccessPrefix4Breaks()
    ensures BreaksExactlyFrom(AccessBlock0 + AccessBlock1 + AccessBlock2 + AccessBlock3 + AccessBlock4, 0, AccessBreaks)
  {
    AccessPrefix2Breaks();
    AccessBlock3Breaks();
    assert LessAt(AccessProviderTypeDeSEC, AccessProviderTypeDigitalOcean, 1);
    BreaksAppend(AccessBlock0 + AccessBlock1 + AccessBlock2, AccessBlock3, 0, AccessBreaks);
    AccessBlock4Breaks();
    assert LessAt(AccessProviderTypeEdgio, AccessProviderTypeEmail, 1);
    BreaksAppend(AccessBlock0 + AccessBlock1 + AccessBlock2 + AccessBlock3, AccessBlock4, 0, AccessBreaks);
  }

  /** The declared access family up to block 6 breaks its order exactly at the positions listed. */
  lemma AccessPrefix6Breaks()
    ensures BreaksExactlyFrom(AccessBlock0 + AccessBlock1 + AccessBlock2 + AccessBlock3 + AccessBlock4 + AccessBlock5 + AccessBlock6, 0, AccessBreaks)
  {
    AccessPrefix4Breaks();
    AccessBlock5Breaks();
    assert LessAt(AccessProviderTypeGoEdge, AccessProviderTypeGoogleTrustServices, 2);
    BreaksAppend(AccessBlock0 + AccessBlock1 + AccessBlock2 + AccessBlock3 + AccessBlock4, AccessBlock5, 0, AccessBreaks);
    AccessBlock6Breaks();
    assert LessAt(AccessProviderTypeLarkBot, AccessProviderTypeLetsEncrypt, 1);
    BreaksAppend(AccessBlock0 + AccessBlock1 + AccessBlock2 + AccessBlock3 + AccessBlock4 + AccessBlock5, AccessBlock6, 0, AccessBreaks);
  }

  /** The declared access family up to block 8 breaks its order exactly at the positions listed. */
  lemma AccessPrefix8Breaks()
    ensures BreaksExactlyFrom(AccessBlock0 + AccessBlock1 + AccessBlock2 + AccessBlock3 + AccessBlock4 + AccessBlock5 + AccessBlock6 + AccessBlock7 + AccessBlock8, 0, AccessBreaks)
  {
    AccessPrefix6Breaks();
    AccessBlock7Breaks();
    assert LessAt(AccessProviderTypeNameDotCom, AccessProviderTypeNameSilo, 4);
    BreaksAppend(AccessBlock0 + AccessBlock1 + AccessBlock2 + AccessBlock3 + AccessBlock4 + AccessBlock5 + AccessBlock6, AccessBlock7, 0, AccessBreaks);
    AccessBlock8Breaks();
    assert LessAt(AccessProviderTypeProxmoxVE, AccessProviderTypeQiniu, 0);
    BreaksAppend(AccessBlock0 + AccessBlock1 + AccessBlock2 + AccessBlock3 + AccessBlock4 + AccessBlock5 + AccessBlock6 + AccessBlock7, AccessBlock8, 0, AccessBreaks);
  }

  lemma AccessProviderTypesBreaks()
    ensures BreaksExactlyFrom(AccessProviderTypes, 0, AccessBreaks)
  {
    AccessPrefix8Breaks();
    AccessBlock9Breaks();
    assert LessAt(AccessProviderTypeSpaceship, AccessProviderTypeSSH, 1);
    BreaksAppend(AccessBlock0 + AccessBlock1 + AccessBlock2 + AccessBlock3 + AccessBlock4 + AccessBlock5 + AccessBlock6 + AccessBlock7 + AccessBlock8, AccessBlock9, 0, AccessBreaks);
    AccessBlock10Breaks();
    assert LessAt(AccessProviderTypeUpyun, AccessProviderTypeVercel, 0);
    BreaksAppend(AccessBlock0 + AccessBlock1 + AccessBlock2 + AccessBlock3 + AccessBlock4 + AccessBlock5 + AccessBlock6 + AccessBlock7 + AccessBlock8 + AccessBlock9, AccessBlock10, 0, AccessBreaks);
  }

  /**
   * The declared access provider types are not in ASCII order: these
   * adjacent pairs are reversed, and every other adjacent pair is in order.
   */
  lemma AccessProviderTypesNotOrdered()
    ensures !Ordered(AccessProviderTypes)
    ensures forall i | 0 < i < |AccessProviderTypes| :: BreaksOrderAt(AccessProviderTypes, i) <==> i in {13, 36, 44, 48, 61}
    ensures BreaksOrderAt(AccessProviderTypes, 13)
    ensures AccessProviderTypes[12] == AccessProviderTypeBytePlus && AccessProviderTypes[13] == AccessProviderTypeBunny
    ensures BreaksOrderAt(AccessProviderTypes, 36)
    ensures AccessProviderTypes[35] == AccessProviderTypeGname && AccessProviderTypes[36] == AccessProviderTypeGcore
    ensures BreaksOrderAt(AccessProviderTypes, 44)
    ensures AccessProviderTypes[43] == AccessProviderTypeKong && AccessProviderTypes[44] == AccessProviderTypeKubernetes
    ensures BreaksOrderAt(AccessProviderTypes, 48)
    ensures AccessProviderTypes[47] == AccessProviderTypeLetsEncryptStaging && AccessProviderTypes[48] == AccessProviderTypeLeCDN
    ensures BreaksOrderAt(AccessProviderTypes, 61)
    ensures AccessProviderTypes[60] == AccessProviderTypeQiniu && AccessProviderTypes[61] == AccessProviderTypeQingCloud
  {
    NotLessAt(AccessProviderTypeBytePlus, AccessProviderTypeBunny, 1);
    NotLessAt(AccessProviderTypeGname, AccessProviderTypeGcore, 1);
    NotLessAt(AccessProviderTypeKong, AccessProviderTypeKubernetes, 1);
    NotLessAt(AccessProviderTypeLetsEncryptStaging, AccessProviderTypeLeCDN, 2);
    NotLessAt(AccessProviderTypeQiniu, AccessProviderTypeQingCloud, 3);
    BreakIsNotOrdered(AccessProviderTypes, 13);
    AccessProviderTypesBreaks();
  }

  // ------------------------------------------------------------------
  // Certificate authority provider types (internal/domain/provider.go:105-111)

  const CAProviderTypeACMECA: CAProviderType := AccessProviderTypeACMECA
  const CAProviderTypeBuypass: CAProviderType := AccessProviderTypeBuypass
  const CAProviderTypeGoogleTrustServices: CAProviderType := AccessProviderTypeGoogleTrustServices
  const CAProviderTypeLetsEncrypt: CAProviderType := AccessProviderTypeLetsEncrypt
  const CAProviderTypeLetsEncryptStaging: CAProviderType := AccessProviderTypeLetsEncryptStaging
  const CAProviderTypeSSLCom: CAProviderType := AccessProviderTypeSSLCOM
  const CAProviderTypeZeroSSL: CAProviderType := AccessProviderTypeZeroSSL

  const CABlock0: seq<CAProviderType> := [CAProviderTypeACMECA, CAProviderTypeBuypass,
    CAProviderTypeGoogleTrustServices, CAProviderTypeLetsEncrypt, CAProviderTypeLetsEncryptStaging,
    CAProviderTypeSSLCom, CAProviderTypeZeroSSL]

  /** All certificate authority provider types, in declaration order. */
  const CAProviderTypes: seq<CAProviderType> :=
    CABlock0

  lemma CABlock0Ordered()
    ensures Ordered(CABlock0)
  {
    assert LessAt(CAProviderTypeACMECA, CAProviderTypeBuypass, 0);
    assert LessAt(CAProviderTypeBuypass, CAProviderTypeGoogleTrustServices, 0);
    assert LessAt(CAProviderTypeGoogleTrustServices, CAProviderTypeLetsEncrypt, 0);
    assert LessAt(CAProviderTypeLetsEncrypt, CAProviderTypeLetsEncryptStaging, 11);
    assert LessAt(CAProviderTypeLetsEncryptStaging, CAProviderTypeSSLCom, 0);
    assert LessAt(CAProviderTypeSSLCom, CAProviderTypeZeroSSL, 0);
  }

  lemma CAProviderTypesOrdered()
    ensures Ordered(CAProviderTypes)
  {
    CABlock0Ordered();
  }

  /** Every certificate authority provider type is exactly an access provider type. */
  lemma CAProviderTypesAreAccessProviderTypes()
    ensures forall v | v in CAProviderTypes :: v in AccessProviderTypes
  {
  }

  /** No two certificate authority provider types share a value. */
  lemma CAProviderTypesDistinct()
    ensures Distinct(CAProviderTypes)
  {
    CAProviderTypesOrdered();
    OrderedIsDistinct(CAProviderTypes);
  }

  // ------------------------------------------------------------------
  // ACME DNS-01 provider types (internal/domain/provider.go:124-172)

  const ACMEDns01ProviderTypeACMEHttpReq: ACMEDns01ProviderType := AccessProviderTypeACMEHttpReq
  const ACMEDns01ProviderTypeAliyun: ACMEDns01ProviderType := AccessProviderTypeAliyun
  const ACMEDns01ProviderTypeAliyunDNS: ACMEDns01ProviderType := AccessProviderTypeAliyun + "-dns"
  const ACMEDns01ProviderTypeAliyunESA: ACMEDns01ProviderType := AccessProviderTypeAliyun + "-esa"
  const ACMEDns01ProviderTypeAWS: ACMEDns01ProviderType := AccessProviderTypeAWS
  const ACMEDns01ProviderTypeAWSRoute53: ACMEDns01ProviderType := AccessProviderTypeAWS + "-route53"
  const ACMEDns01ProviderTypeAzure: ACMEDns01ProviderType := AccessProviderTypeAzure
  const ACMEDns01ProviderTypeAzureDNS: ACMEDns01ProviderType := AccessProviderTypeAzure + "-dns"
  const ACMEDns01ProviderTypeBaiduCloud: ACMEDns01ProviderType := AccessProviderTypeBaiduCloud
  const ACMEDns01ProviderTypeBaiduCloudDNS: ACMEDns01ProviderType := AccessProviderTypeBaiduCloud + "-dns"
  const ACMEDns01ProviderTypeBunny: ACMEDns01ProviderType := AccessProviderTypeBunny
  const ACMEDns01ProviderTypeCloudflare: ACMEDns01ProviderType := AccessProviderTypeCloudflare
  const ACMEDns01ProviderTypeClouDNS: ACMEDns01ProviderType := AccessProviderTypeClouDNS
  const ACMEDns01ProviderTypeCMCCCloud: ACMEDns01ProviderType := AccessProviderTypeCMCCCloud
  const ACMEDns01ProviderTypeCMCCCloudDNS: ACMEDns01ProviderType := AccessProviderTypeCMCCCloud + "-dns"
  const ACMEDns01ProviderTypeConstellix: ACMEDns01ProviderType := AccessProviderTypeConstellix
  const ACMEDns01ProviderTypeCTCCCloud: ACMEDns01ProviderType := AccessProviderTypeCTCCCloud
  const ACMEDns01ProviderTypeCTCCCloudSmartDNS: ACMEDns01ProviderType := AccessProviderTypeCTCCCloud + "-smartdns"
  const ACMEDns01ProviderTypeDeSEC: ACMEDns01ProviderType := AccessProviderTypeDeSEC
  const ACMEDns01ProviderTypeDigitalOcean: ACMEDns01ProviderType := AccessProviderTypeDigitalOcean
  const ACMEDns01ProviderTypeDNSLA: ACMEDns01ProviderType := AccessProviderTypeDNSLA
  const ACMEDns01ProviderTypeDuckDNS: ACMEDns01ProviderType := AccessProviderTypeDuckDNS
  const ACMEDns01ProviderTypeDynv6: ACMEDns01ProviderType := AccessProviderTypeDynv6
  const ACMEDns01ProviderTypeGcore: ACMEDns01ProviderType := AccessProviderTypeGcore
  const ACMEDns01ProviderTypeGname: ACMEDns01ProviderType := AccessProviderTypeGname
  const ACMEDns01ProviderTypeGoDaddy: ACMEDns01ProviderType := AccessProviderTypeGoDaddy
  const ACMEDns01ProviderTypeHetzner: ACMEDns01ProviderType := AccessProviderTypeHetzner
  const ACMEDns01ProviderTypeHuaweiCloud: ACMEDns01ProviderType := AccessProviderTypeHuaweiCloud
  const ACMEDns01ProviderTypeHuaweiCloudDNS: ACMEDns01ProviderType := AccessProviderTypeHuaweiCloud + "-dns"
  const ACMEDns01ProviderTypeJDCloud: ACMEDns01ProviderType := AccessProviderTypeJDCloud
  const ACMEDns01ProviderTypeJDCloudDNS: ACMEDns01ProviderType := AccessProviderTypeJDCloud + "-dns"
  const ACMEDns01ProviderTypeNamecheap: ACMEDns01ProviderType := AccessProviderTypeNamecheap
  const ACMEDns01ProviderTypeNameDotCom: ACMEDns01ProviderType := AccessProviderTypeNameDotCom
  const ACMEDns01ProviderTypeNameSilo: ACMEDns01ProviderType := AccessProviderTypeNameSilo
  const ACMEDns01ProviderTypeNetcup: ACMEDns01ProviderType := AccessProviderTypeNetcup
  const ACMEDns01ProviderTypeNetlify: ACMEDns01ProviderType := AccessProviderTypeNetlify
  const ACMEDns01ProviderTypeNS1: ACMEDns01ProviderType := AccessProviderTypeNS1
  const ACMEDns01ProviderTypePorkbun: ACMEDns01ProviderType := AccessProviderTypePorkbun
  const ACMEDns01ProviderTypePowerDNS: ACMEDns01ProviderType := AccessProviderTypePowerDNS
  const ACMEDns01ProviderTypeRainYun: ACMEDns01ProviderType := AccessProviderTypeRainYun
  const ACMEDns01ProviderTypeSpaceship: ACMEDns01ProviderType := AccessProviderTypeSpaceship
  const ACMEDns01ProviderTypeTencentCloud: ACMEDns01ProviderType := AccessProviderTypeTencentCloud
  const ACMEDns01ProviderTypeTencentCloudDNS: ACMEDns01ProviderType := AccessProviderTypeTencentCloud + "-dns"
  const ACMEDns01ProviderTypeTencentCloudEO: ACMEDns01ProviderType := AccessProviderTypeTencentCloud + "-eo"
  const ACMEDns01ProviderTypeUCloudUDNR: ACMEDns01ProviderType := AccessProviderTypeUCloud + "-udnr"
  const ACMEDns01ProviderTypeVercel: ACMEDns01ProviderType := AccessProviderTypeVercel
  const ACMEDns01ProviderTypeVolcEngine: ACMEDns01ProviderType := AccessProviderTypeVolcEngine
  const ACMEDns01ProviderTypeVolcEngineDNS: ACMEDns01ProviderType := AccessProviderTypeVolcEngine + "-dns"
  const ACMEDns01ProviderTypeWestcn: ACMEDns01ProviderType := AccessProviderTypeWestcn

  const ACMEDns01Block0: seq<ACMEDns01ProviderType> := [ACMEDns01ProviderTypeACMEHttpReq,
    ACMEDns01ProviderTypeAliyun, ACMEDns01ProviderTypeAliyunDNS, ACMEDns01ProviderTypeAliyunESA,
    ACMEDns01ProviderTypeAWS, ACMEDns01ProviderTypeAWSRoute53, ACMEDns01ProviderTypeAzure]
  const ACMEDns01Block1: seq<ACMEDns01ProviderType> := [ACMEDns01ProviderTypeAzureDNS,
    ACMEDns01ProviderTypeBaiduCloud, ACMEDns01ProviderTypeBaiduCloudDNS,
    ACMEDns01ProviderTypeBunny, ACMEDns01ProviderTypeCloudflare, ACMEDns01ProviderTypeClouDNS,
    ACMEDns01ProviderTypeCMCCCloud]
  const ACMEDns01Block2: seq<ACMEDns01ProviderType> := [ACMEDns01ProviderTypeCMCCCloudDNS,
    ACMEDns01ProviderTypeConstellix, ACMEDns01ProviderTypeCTCCCloud,
    ACMEDns01ProviderTypeCTCCCloudSmartDNS, ACMEDns01ProviderTypeDeSEC,
    ACMEDns01ProviderTypeDigitalOcean, ACMEDns01ProviderTypeDNSLA]
  const ACMEDns01Block3: seq<ACMEDns01ProviderType> := [ACMEDns01ProviderTypeDuckDNS,
    ACMEDns01ProviderTypeDynv6, ACMEDns01ProviderTypeGcore, ACMEDns01ProviderTypeGname,
    ACMEDns01ProviderTypeGoDaddy, ACMEDns01ProviderTypeHetzner, ACMEDns01ProviderTypeHuaweiCloud]
  const ACMEDns01Block4: seq<ACMEDns01ProviderType> := [ACMEDns01ProviderTypeHuaweiCloudDNS,
    ACMEDns01ProviderTypeJDCloud, ACMEDns01ProviderTypeJDCloudDNS, ACMEDns01ProviderTypeNamecheap,
    ACMEDns01ProviderTypeNameDotCom, ACMEDns01ProviderTypeNameSilo, ACMEDns01ProviderTypeNetcup]
  const ACMEDns01Block5: seq<ACMEDns01ProviderType> := [ACMEDns01ProviderTypeNetlify,
    ACMEDns01ProviderTypeNS1, ACMEDns01ProviderTypePorkbun, ACMEDns01ProviderTypePowerDNS,
    ACMEDns01ProviderTypeRainYun, ACMEDns01ProviderTypeSpaceship, ACMEDns01ProviderTypeTencentCloud]
  const ACMEDns01Block6: seq<ACMEDns01ProviderType> := [ACMEDns01ProviderTypeTencentCloudDNS,
    ACMEDns01ProviderTypeTencentCloudEO, ACMEDns01ProviderTypeUCloudUDNR,
    ACMEDns01ProviderTypeVercel, ACMEDns01ProviderTypeVolcEngine,
    ACMEDns01ProviderTypeVolcEngineDNS, ACMEDns01ProviderTypeWestcn]

  /** All ACME DNS-01 provider types, in declaration order. */
  const ACMEDns01ProviderTypes: seq<ACMEDns01ProviderType> :=
    ACMEDns01Block0 + ACMEDns01Block1 + ACMEDns01Block2 + ACMEDns01Block3 + ACMEDns01Block4 +
    ACMEDns01Block5 + ACMEDns01Block6

  lemma ACMEDns01Block0Ordered()
    ensures Ordered(ACMEDns01Block0)
  {
    assert LessAt(ACMEDns01ProviderTypeACMEHttpReq, ACMEDns01ProviderTypeAliyun, 1);
    assert LessAt(ACMEDns01ProviderTypeAliyun, ACMEDns01ProviderTypeAliyunDNS, 6);
    assert LessAt(ACMEDns01ProviderTypeAliyunDNS, ACMEDns01ProviderTypeAliyunESA, 7);
    assert LessAt(ACMEDns01ProviderTypeAliyunESA, ACMEDns01ProviderTypeAWS, 1);
    assert LessAt(ACMEDns01ProviderTypeAWS, ACMEDns01ProviderTypeAWSRoute53, 3);
    assert LessAt(ACMEDns01ProviderTypeAWSRoute53, ACMEDns01ProviderTypeAzure, 1);
  }

  lemma ACMEDns01Block1Ordered()
    ensures Ordered(ACMEDns01Block1)
  {
    assert LessAt(ACMEDns01ProviderTypeAzureDNS, ACMEDns01ProviderTypeBaiduCloud, 0);
    assert LessAt(ACMEDns01ProviderTypeBaiduCloud, ACMEDns01ProviderTypeBaiduCloudDNS, 10);
    assert LessAt(ACMEDns01ProviderTypeBaiduCloudDNS, ACMEDns01ProviderTypeBunny, 1);
    assert LessAt(ACMEDns01ProviderTypeBunny, ACMEDns01ProviderTypeCloudflare, 0);
    assert LessAt(ACMEDns01ProviderTypeCloudflare, ACMEDns01ProviderTypeClouDNS, 5);
    assert LessAt(ACMEDns01ProviderTypeClouDNS, ACMEDns01ProviderTypeCMCCCloud, 1);
  }

  lemma ACMEDns01Block2Ordered()
    ensures Ordered(ACMEDns01Block2)
  {
    assert LessAt(ACMEDns01ProviderTypeCMCCCloudDNS, ACMEDns01ProviderTypeConstellix, 1);
    assert LessAt(ACMEDns01ProviderTypeConstellix, ACMEDns01ProviderTypeCTCCCloud, 1);
    assert LessAt(ACMEDns01ProviderTypeCTCCCloud, ACMEDns01ProviderTypeCTCCCloudSmartDNS, 9);
    assert LessAt(ACMEDns01ProviderTypeCTCCCloudSmartDNS, ACMEDns01ProviderTypeDeSEC, 0);
    assert LessAt(ACMEDns01ProviderTypeDeSEC, ACMEDns01ProviderTypeDigitalOcean, 1);
    assert LessAt(ACMEDns01ProviderTypeDigitalOcean, ACMEDns01ProviderTypeDNSLA, 1);
  }

  lemma ACMEDns01Block3Ordered()
    ensures Ordered(ACMEDns01Block3)
  {
    assert LessAt(ACMEDns01ProviderTypeDuckDNS, ACMEDns01ProviderTypeDynv6, 1);
    assert LessAt(ACMEDns01ProviderTypeDynv6, ACMEDns01ProviderTypeGcore, 0);
    assert LessAt(ACMEDns01ProviderTypeGcore, ACMEDns01ProviderTypeGname, 1);
    assert LessAt(ACMEDns01ProviderTypeGname, ACMEDns01ProviderTypeGoDaddy, 1);
    assert LessAt(ACMEDns01ProviderTypeGoDaddy, ACMEDns01ProviderTypeHetzner, 0);
    assert LessAt(ACMEDns01ProviderTypeHetzner, ACMEDns01ProviderTypeHuaweiCloud, 1);
  }

  lemma ACMEDns01Block4Ordered()
    ensures Ordered(ACMEDns01Block4)
  {
    assert LessAt(ACMEDns01ProviderTypeHuaweiCloudDNS, ACMEDns01ProviderTypeJDCloud, 0);
    assert LessAt(ACMEDns01ProviderTypeJDCloud, ACMEDns01ProviderTypeJDCloudDNS, 7);
    assert LessAt(ACMEDns01ProviderTypeJDCloudDNS, ACMEDns01ProviderTypeNamecheap, 0);
    assert LessAt(ACMEDns01ProviderTypeNamecheap, ACMEDns01ProviderTypeNameDotCom, 4);
    assert LessAt(ACMEDns01ProviderTypeNameDotCom, ACMEDns01ProviderTypeNameSilo, 4);
    assert LessAt(ACMEDns01ProviderTypeNameSilo, ACMEDns01ProviderTypeNetcup, 1);
  }

  lemma ACMEDns01Block5Ordered()
    ensures Ordered(ACMEDns01Block5)
  {
    assert LessAt(ACMEDns01ProviderTypeNetlify, ACMEDns01ProviderTypeNS1, 1);
    assert LessAt(ACMEDns01ProviderTypeNS1, ACMEDns01ProviderTypePorkbun, 0);
    assert LessAt(ACMEDns01ProviderTypePorkbun, ACMEDns01ProviderTypePowerDNS, 2);
    assert LessAt(ACMEDns01ProviderTypePowerDNS, ACMEDns01ProviderTypeRainYun, 0);
    assert LessAt(ACMEDns01ProviderTypeRainYun, ACMEDns01ProviderTypeSpaceship, 0);
    assert LessAt(ACMEDns01ProviderTypeSpaceship, ACMEDns01ProviderTypeTencentCloud, 0);
  }

  lemma ACMEDns01Block6Ordered()
    ensures Ordered(ACMEDns01Block6)
  {
    assert LessAt(ACMEDns01ProviderTypeTencentCloudDNS, ACMEDns01ProviderTypeTencentCloudEO, 13);
    assert LessAt(ACMEDns01ProviderTypeTencentCloudEO, ACMEDns01ProviderTypeUCloudUDNR, 0);
    assert LessAt(ACMEDns01ProviderTypeUCloudUDNR, ACMEDns01ProviderTypeVercel, 0);
    assert LessAt(ACMEDns01ProviderTypeVercel, ACMEDns01ProviderTypeVolcEngine, 1);
    assert LessAt(ACMEDns01ProviderTypeVolcEngine, ACMEDns01ProviderTypeVolcEngineDNS, 10);
    assert LessAt(ACMEDns01ProviderTypeVolcEngineDNS, ACMEDns01ProviderTypeWestcn, 0);
  }

  lemma ACMEDns01ProviderTypesOrdered()
    ensures Ordered(ACMEDns01ProviderTypes)
  {
    ACMEDns01Block0Ordered();
    ACMEDns01Block1Ordered();
    assert LessAt(ACMEDns01ProviderTypeAzure, ACMEDns01ProviderTypeAzureDNS, 5);
    OrderedAppend(ACMEDns01Block0, ACMEDns01Block1);
    ACMEDns01Block2Ordered();
    assert LessAt(ACMEDns01ProviderTypeCMCCCloud, ACMEDns01ProviderTypeCMCCCloudDNS, 9);
    OrderedAppend(ACMEDns01Block0 + ACMEDns01Block1, ACMEDns01Block2);
    ACMEDns01Block3Ordered();
    assert LessAt(ACMEDns01ProviderTypeDNSLA, ACMEDns01ProviderTypeDuckDNS, 1);
    OrderedAppend(ACMEDns01Block0 + ACMEDns01Block1 + ACMEDns01Block2, ACMEDns01Block3);
    ACMEDns01Block4Ordered();
    assert LessAt(ACMEDns01ProviderTypeHuaweiCloud, ACMEDns01ProviderTypeHuaweiCloudDNS, 11);
    OrderedAppend(ACMEDns01Block0 + ACMEDns01Block1 + ACMEDns01Block2 + ACMEDns01Block3, ACMEDns01Block4);
    ACMEDns01Block5Ordered();
    assert LessAt(ACMEDns01ProviderTypeNetcup, ACMEDns01ProviderTypeNetlify, 3);
    OrderedAppend(ACMEDns01Block0 + ACMEDns01Block1 + ACMEDns01Block2 + ACMEDns01Block3 + ACMEDns01Block4, ACMEDns01Block5);
    ACMEDns01Block6Ordered();
    assert LessAt(ACMEDns01ProviderTypeTencentCloud, ACMEDns01ProviderTypeTencentCloudDNS, 12);
    OrderedAppend(ACMEDns01Block0 + ACMEDns01Block1 + ACMEDns01Block2 + ACMEDns01Block3 + ACMEDns01Block4 + ACMEDns01Block5, ACMEDns01Block6);
  }

  lemma ACMEDns01Block0Facts()
    ensures forall v | v in ACMEDns01Block0 :: PrefixedByAccess(v, AccessProviderTypes)
  {
    assert HasAccessPrefix(ACMEDns01ProviderTypeACMEHttpReq, AccessProviderTypeACMEHttpReq);
    assert HasAccessPrefix(ACMEDns01ProviderTypeAliyun, AccessProviderTypeAliyun);
    assert HasAccessPrefix(ACMEDns01ProviderTypeAliyunDNS, AccessProviderTypeAliyun);
    assert HasAccessPrefix(ACMEDns01ProviderTypeAliyunESA, AccessProviderTypeAliyun);
    assert HasAccessPrefix(ACMEDns01ProviderTypeAWS, AccessProviderTypeAWS);
    assert HasAccessPrefix(ACMEDns01ProviderTypeAWSRoute53, AccessProviderTypeAWS);
    assert HasAccessPrefix(ACMEDns01ProviderTypeAzure, AccessProviderTypeAzure);
  }

  lemma ACMEDns01Block1Facts()
    ensures forall v | v in ACMEDns01Block1 :: PrefixedByAccess(v, AccessProviderTypes)
  {
    assert HasAccessPrefix(ACMEDns01ProviderTypeAzureDNS, AccessProviderTypeAzure);
    assert HasAccessPrefix(ACMEDns01ProviderTypeBaiduCloud, AccessProviderTypeBaiduCloud);
    assert HasAccessPrefix(ACMEDns01ProviderTypeBaiduCloudDNS, AccessProviderTypeBaiduCloud);
    assert HasAccessPrefix(ACMEDns01ProviderTypeBunny, AccessProviderTypeBunny);
    assert HasAccessPrefix(ACMEDns01ProviderTypeCloudflare, AccessProviderTypeCloudflare);
    assert HasAccessPrefix(ACMEDns01ProviderTypeClouDNS, AccessProviderTypeClouDNS);
    assert HasAccessPrefix(ACMEDns01ProviderTypeCMCCCloud, AccessProviderTypeCMCCCloud);
  }

  lemma ACMEDns01Block2Facts()
    ensures forall v | v in ACMEDns01Block2 :: PrefixedByAccess(v, AccessProviderTypes)
  {
    assert HasAccessPrefix(ACMEDns01ProviderTypeCMCCCloudDNS, AccessProviderTypeCMCCCloud);
    assert HasAccessPrefix(ACMEDns01ProviderTypeConstellix, AccessProviderTypeConstellix);
    assert HasAccessPrefix(ACMEDns01ProviderTypeCTCCCloud, AccessProviderTypeCTCCCloud);
    assert HasAccessPrefix(ACMEDns01ProviderTypeCTCCCloudSmartDNS, AccessProviderTypeCTCCCloud);
    assert HasAccessPrefix(ACMEDns01ProviderTypeDeSEC, AccessProviderTypeDeSEC);
    assert HasAccessPrefix(ACMEDns01ProviderTypeDigitalOcean, AccessProviderTypeDigitalOcean);
    assert HasAccessPrefix(ACMEDns01ProviderTypeDNSLA, AccessProviderTypeDNSLA);
  }

  lemma ACMEDns01Block3Facts()
    ensures forall v | v in ACMEDns01Block3 :: PrefixedByAccess(v, AccessProviderTypes)
  {
    assert HasAccessPrefix(ACMEDns01ProviderTypeDuckDNS, AccessProviderTypeDuckDNS);
    assert HasAccessPrefix(ACMEDns01ProviderTypeDynv6, AccessProviderTypeDynv6);
    assert HasAccessPrefix(ACMEDns01ProviderTypeGcore, AccessProviderTypeGcore);
    assert HasAccessPrefix(ACMEDns01ProviderTypeGname, AccessProviderTypeGname);
    assert HasAccessPrefix(ACMEDns01ProviderTypeGoDaddy, AccessProviderTypeGoDaddy);
    assert HasAccessPrefix(ACMEDns01ProviderTypeHetzner, AccessProviderTypeHetzner);
    assert HasAccessPrefix(ACMEDns01ProviderTypeHuaweiCloud, AccessProviderTypeHuaweiCloud);
  }

  lemma ACMEDns01Block4Facts()
    ensures forall v | v in ACMEDns01Block4 :: PrefixedByAccess(v, AccessProviderTypes)
  {
    assert HasAccessPrefix(ACMEDns01ProviderTypeHuaweiCloudDNS, AccessProviderTypeHuaweiCloud);
    assert HasAccessPrefix(ACMEDns01ProviderTypeJDCloud, AccessProviderTypeJDCloud);
    assert HasAccessPrefix(ACMEDns01ProviderTypeJDCloudDNS, AccessProviderTypeJDCloud);
    assert HasAccessPrefix(ACMEDns01ProviderTypeNamecheap, AccessProviderTypeNamecheap);
    assert HasAccessPrefix(ACMEDns01ProviderTypeNameDotCom, AccessProviderTypeNameDotCom);
    assert HasAccessPrefix(ACMEDns01ProviderTypeNameSilo, AccessProviderTypeNameSilo);
    assert HasAccessPrefix(ACMEDns01ProviderTypeNetcup, AccessProviderTypeNetcup);
  }

  lemma ACMEDns01Block5Facts()
    ensures forall v | v in ACMEDns01Block5 :: PrefixedByAccess(v, AccessProviderTypes)
  {
    assert HasAccessPrefix(ACMEDns01ProviderTypeNetlify, AccessProviderTypeNetlify);
    assert HasAccessPrefix(ACMEDns01ProviderTypeNS1, AccessProviderTypeNS1);
    assert HasAccessPrefix(ACMEDns01ProviderTypePorkbun, AccessProviderTypePorkbun);
    assert HasAccessPrefix(ACMEDns01ProviderTypePowerDNS, AccessProviderTypePowerDNS);
    assert HasAccessPrefix(ACMEDns01ProviderTypeRainYun, AccessProviderTypeRainYun);
    assert HasAccessPrefix(ACMEDns01ProviderTypeSpaceship, AccessProviderTypeSpaceship);
    assert HasAccessPrefix(ACMEDns01ProviderTypeTencentCloud, AccessProviderTypeTencentCloud);
  }

  lemma ACMEDns01Block6Facts()
    ensures forall v | v in ACMEDns01Block6 :: PrefixedByAccess(v, AccessProviderTypes)
  {
    assert HasAccessPrefix(ACMEDns01ProviderTypeTencentCloudDNS, AccessProviderTypeTencentCloud);
    assert HasAccessPrefix(ACMEDns01ProviderTypeTencentCloudEO, AccessProviderTypeTencentCloud);
    assert HasAccessPrefix(ACMEDns01ProviderTypeUCloudUDNR, AccessProviderTypeUCloud);
    assert HasAccessPrefix(ACMEDns01ProviderTypeVercel, AccessProviderTypeVercel);
    assert HasAccessPrefix(ACMEDns01ProviderTypeVolcEngine, AccessProviderTypeVolcEngine);
    assert HasAccessPrefix(ACMEDns01ProviderTypeVolcEngineDNS, AccessProviderTypeVolcEngine);
    assert HasAccessPrefix(ACMEDns01ProviderTypeWestcn, AccessProviderTypeWestcn);
  }

  /** Every ACME DNS-01 provider type is an access provider type, alone or followed by `-` and a suffix. */
  lemma ACMEDns01ProviderTypesHaveAccessPrefix()
    ensures forall v | v in ACMEDns01ProviderTypes :: PrefixedByAccess(v, AccessProviderTypes)
  {
    ACMEDns01Block0Facts();
    ACMEDns01Block1Facts();
    ACMEDns01Block2Facts();
    ACMEDns01Block3Facts();
    ACMEDns01Block4Facts();
    ACMEDns01Block5Facts();
    ACMEDns01Block6Facts();
  }

  /** The part of every ACME DNS-01 provider type before its first `-` is an access provider type. */
  lemma ACMEDns01PrefixRule()
    ensures forall v | v in ACMEDns01ProviderTypes :: AccessPart(v) in AccessProviderTypes
  {
    ACMEDns01ProviderTypesHaveAccessPrefix();
    AccessProviderTypesHaveNoDash();
    forall v | v in ACMEDns01ProviderTypes
      ensures AccessPart(v) in AccessProviderTypes
    {
      var a :| a in AccessProviderTypes && HasAccessPrefix(v, a);
      AccessPartOfPrefixed(v, a);
    }
  }

  /** A ACME DNS-01 provider type has no suffix exactly when it is itself an access provider type. */
  lemma ACMEDns01SuffixlessAreAccessProviderTypes()
    ensures forall v | v in ACMEDns01ProviderTypes :: (v in AccessProviderTypes <==> '-' !in v)
  {
    ACMEDns01PrefixRule();
    AccessProviderTypesHaveNoDash();
    forall v | v in ACMEDns01ProviderTypes && '-' !in v
      ensures v in AccessProviderTypes
    {
      AccessPartOfPrefixed(v, v);
    }
  }

  /** No two ACME DNS-01 provider types share a value. */
  lemma ACMEDns01ProviderTypesDistinct()
    ensures Distinct(ACMEDns01ProviderTypes)
  {
    ACMEDns01ProviderTypesOrdered();
    OrderedIsDistinct(ACMEDns01ProviderTypes);
  }

  // ------------------------------------------------------------------
  // Deployment provider types (internal/domain/provider.go:185-283)

  const DeploymentProviderType1PanelConsole: DeploymentProviderType := AccessProviderType1Panel + "-console"
  const DeploymentProviderType1PanelSite: DeploymentProviderType := AccessProviderType1Panel + "-site"
  const DeploymentProviderTypeAliyunALB: DeploymentProviderType := AccessProviderTypeAliyun + "-alb"
  const DeploymentProviderTypeAliyunAPIGW: DeploymentProviderType := AccessProviderTypeAliyun + "-apigw"
  const DeploymentProviderTypeAliyunCAS: DeploymentProviderType := AccessProviderTypeAliyun + "-cas"
  const DeploymentProviderTypeAliyunCASDeploy: DeploymentProviderType := AccessProviderTypeAliyun + "-casdeploy"
  const DeploymentProviderTypeAliyunCDN: DeploymentProviderType := AccessProviderTypeAliyun + "-cdn"
  const DeploymentProviderTypeAliyunCLB: DeploymentProviderType := AccessProviderTypeAliyun + "-clb"
  const DeploymentProviderTypeAliyunDCDN: DeploymentProviderType := AccessProviderTypeAliyun + "-dcdn"
  const DeploymentProviderTypeAliyunDDoS: DeploymentProviderType := AccessProviderTypeAliyun + "-ddos"
  const DeploymentProviderTypeAliyunESA: DeploymentProviderType := AccessProviderTypeAliyun + "-esa"
  const DeploymentProviderTypeAliyunFC: DeploymentProviderType := AccessProviderTypeAliyun + "-fc"
  const DeploymentProviderTypeAliyunGA: DeploymentProviderType := AccessProviderTypeAliyun + "-ga"
  const DeploymentProviderTypeAliyunLive: DeploymentProviderType := AccessProviderTypeAliyun + "-live"
  const DeploymentProviderTypeAliyunNLB: DeploymentProviderType := AccessProviderTypeAliyun + "-nlb"
  const DeploymentProviderTypeAliyunOSS: DeploymentProviderType := AccessProviderTypeAliyun + "-oss"
  const DeploymentProviderTypeAliyunVOD: DeploymentProviderType := AccessProviderTypeAliyun + "-vod"
  const DeploymentProviderTypeAliyunWAF: DeploymentProviderType := AccessProviderTypeAliyun + "-waf"
  const DeploymentProviderTypeAPISIX: DeploymentProviderType := AccessProviderTypeAWS + "-apisix"
  const DeploymentProviderTypeAWSACM: DeploymentProviderType := AccessProviderTypeAWS + "-acm"
  const DeploymentProviderTypeAWSCloudFront: DeploymentProviderType := AccessProviderTypeAWS + "-cloudfront"
  const DeploymentProviderTypeAWSIAM: DeploymentProviderType := AccessProviderTypeAWS + "-iam"
  const DeploymentProviderTypeAzureKeyVault: DeploymentProviderType := AccessProviderTypeAzure + "-keyvault"
  const DeploymentProviderTypeBaiduCloudAppBLB: DeploymentProviderType := AccessProviderTypeBaiduCloud + "-appblb"
  const DeploymentProviderTypeBaiduCloudBLB: DeploymentProviderType := AccessProviderTypeBaiduCloud + "-blb"
  const DeploymentProviderTypeBaiduCloudCDN: DeploymentProviderType := AccessProviderTypeBaiduCloud + "-cdn"
  const DeploymentProviderTypeBaiduCloudCert: DeploymentProviderType := AccessProviderTypeBaiduCloud + "-cert"
  const DeploymentProviderTypeBaishanCDN: DeploymentProviderType := AccessProviderTypeBaishan + "-cdn"
  const DeploymentProviderTypeBaotaPanelConsole: DeploymentProviderType := AccessProviderTypeBaotaPanel + "-console"
  const DeploymentProviderTypeBaotaPanelSite: DeploymentProviderType := AccessProviderTypeBaotaPanel + "-site"
  const DeploymentProviderTypeBaotaWAFConsole: DeploymentProviderType := AccessProviderTypeBaotaWAF + "-console"
  const DeploymentProviderTypeBaotaWAFSite: DeploymentProviderType := AccessProviderTypeBaotaWAF + "-site"
  const DeploymentProviderTypeBunnyCDN: DeploymentProviderType := AccessProviderTypeBunny + "-cdn"
  const DeploymentProviderTypeBytePlusCDN: DeploymentProviderType := AccessProviderTypeBytePlus + "-cdn"
  const DeploymentProviderTypeCacheFly: DeploymentProviderType := AccessProviderTypeCacheFly
  const DeploymentProviderTypeCdnfly: DeploymentProviderType := AccessProviderTypeCdnfly
  const DeploymentProviderTypeCTCCCloudAO: DeploymentProviderType := AccessProviderTypeCTCCCloud + "-ao"
  const DeploymentProviderTypeCTCCCloudCDN: DeploymentProviderType := AccessProviderTypeCTCCCloud + "-cdn"
  const DeploymentProviderTypeCTCCCloudCMS: DeploymentProviderType := AccessProviderTypeCTCCCloud + "-cms"
  const DeploymentProviderTypeCTCCCloudELB: DeploymentProviderType := AccessProviderTypeCTCCCloud + "-elb"
  const DeploymentProviderTypeCTCCCloudICDN: DeploymentProviderType := AccessProviderTypeCTCCCloud + "-icdn"
  const DeploymentProviderTypeCTCCCloudLVDN: DeploymentProviderType := AccessProviderTypeCTCCCloud + "-ldvn"
  const DeploymentProviderTypeDogeCloudCDN: DeploymentProviderType := AccessProviderTypeDogeCloud + "-cdn"
  const DeploymentProviderTypeEdgioApplications: DeploymentProviderType := AccessProviderTypeEdgio + "-applications"
  const DeploymentProviderTypeFlexCDN: DeploymentProviderType := AccessProviderTypeFlexCDN
  const DeploymentProviderTypeGcoreCDN: DeploymentProviderType := AccessProviderTypeGcore + "-cdn"
  const DeploymentProviderTypeGoEdge: DeploymentProviderType := AccessProviderTypeGoEdge
  const DeploymentProviderTypeHuaweiCloudCDN: DeploymentProviderType := AccessProviderTypeHuaweiCloud + "-cdn"
  const DeploymentProviderTypeHuaweiCloudELB: DeploymentProviderType := AccessProviderTypeHuaweiCloud + "-elb"
  const DeploymentProviderTypeHuaweiCloudSCM: DeploymentProviderType := AccessProviderTypeHuaweiCloud + "-scm"
  const DeploymentProviderTypeHuaweiCloudWAF: DeploymentProviderType := AccessProviderTypeHuaweiCloud + "-waf"
  const DeploymentProviderTypeJDCloudALB: DeploymentProviderType := AccessProviderTypeJDCloud + "-alb"
  const DeploymentProviderTypeJDCloudCDN: DeploymentProviderType := AccessProviderTypeJDCloud + "-cdn"
  const DeploymentProviderTypeJDCloudLive: DeploymentProviderType := AccessProviderTypeJDCloud + "-live"
  const DeploymentProviderTypeJDCloudVOD: DeploymentProviderType := AccessProviderTypeJDCloud + "-vod"
  const DeploymentProviderTypeKong: DeploymentProviderType := AccessProviderTypeKong
  const DeploymentProviderTypeKubernetesSecret: DeploymentProviderType := AccessProviderTypeKubernetes + "-secret"
  const DeploymentProviderTypeLeCDN: DeploymentProviderType := AccessProviderTypeLeCDN
  const DeploymentProviderTypeLocal: DeploymentProviderType := AccessProviderTypeLocal
  const DeploymentProviderTypeNetlifySite: DeploymentProviderType := AccessProviderTypeNetlify + "-site"
  const DeploymentProviderTypeProxmoxVE: DeploymentProviderType := AccessProviderTypeProxmoxVE
  const DeploymentProviderTypeQiniuCDN: DeploymentProviderType := AccessProviderTypeQiniu + "-cdn"
  const DeploymentProviderTypeQiniuKodo: DeploymentProviderType := AccessProviderTypeQiniu + "-kodo"
  const DeploymentProviderTypeQiniuPili: DeploymentProviderType := AccessProviderTypeQiniu + "-pili"
  const DeploymentProviderTypeRainYunRCDN: DeploymentProviderType := AccessProviderTypeRainYun + "-rcdn"
  const DeploymentProviderTypeRatPanelConsole: DeploymentProviderType := AccessProviderTypeRatPanel + "-console"
  const DeploymentProviderTypeRatPanelSite: DeploymentProviderType := AccessProviderTypeRatPanel + "-site"
  const DeploymentProviderTypeSafeLine: DeploymentProviderType := AccessProviderTypeSafeLine
  const DeploymentProviderTypeSSH: DeploymentProviderType := AccessProviderTypeSSH
  const DeploymentProviderTypeTencentCloudCDN: DeploymentProviderType := AccessProviderTypeTencentCloud + "-cdn"
  const DeploymentProviderTypeTencentCloudCLB: DeploymentProviderType := AccessProviderTypeTencentCloud + "-clb"
  const DeploymentProviderTypeTencentCloudCOS: DeploymentProviderType := AccessProviderTypeTencentCloud + "-cos"
  const DeploymentProviderTypeTencentCloudCSS: DeploymentProviderType := AccessProviderTypeTencentCloud + "-css"
  const DeploymentProviderTypeTencentCloudECDN: DeploymentProviderType := AccessProviderTypeTencentCloud + "-ecdn"
  const DeploymentProviderTypeTencentCloudEO: DeploymentProviderType := AccessProviderTypeTencentCloud + "-eo"
  const DeploymentProviderTypeTencentCloudGAAP: DeploymentProviderType := AccessProviderTypeTencentCloud + "-gaap"
  const DeploymentProviderTypeTencentCloudSCF: DeploymentProviderType := AccessProviderTypeTencentCloud + "-scf"
  const DeploymentProviderTypeTencentCloudSSL: DeploymentProviderType := AccessProviderTypeTencentCloud + "-ssl"
  const DeploymentProviderTypeTencentCloudSSLDeploy: DeploymentProviderType := AccessProviderTypeTencentCloud + "-ssldeploy"
  const DeploymentProviderTypeTencentCloudSSLUpdate: DeploymentProviderType := AccessProviderTypeTencentCloud + "-sslupdate"
  const DeploymentProviderTypeTencentCloudVOD: DeploymentProviderType := AccessProviderTypeTencentCloud + "-vod"
  const DeploymentProviderTypeTencentCloudWAF: DeploymentProviderType := AccessProviderTypeTencentCloud + "-waf"
  const DeploymentProviderTypeUCloudUCDN: DeploymentProviderType := AccessProviderTypeUCloud + "-ucdn"
  const DeploymentProviderTypeUCloudUS3: DeploymentProviderType := AccessProviderTypeUCloud + "-us3"
  const DeploymentProviderTypeUniCloudWebHost: DeploymentProviderType := AccessProviderTypeUniCloud + "-webhost"
  const DeploymentProviderTypeUpyunCDN: DeploymentProviderType := AccessProviderTypeUpyun + "-cdn"
  const DeploymentProviderTypeUpyunFile: DeploymentProviderType := AccessProviderTypeUpyun + "-file"
  const DeploymentProviderTypeVolcEngineALB: DeploymentProviderType := AccessProviderTypeVolcEngine + "-alb"
  const DeploymentProviderTypeVolcEngineCDN: DeploymentProviderType := AccessProviderTypeVolcEngine + "-cdn"
  const DeploymentProviderTypeVolcEngineCertCenter: DeploymentProviderType := AccessProviderTypeVolcEngine + "-certcenter"
  const DeploymentProviderTypeVolcEngineCLB: DeploymentProviderType := AccessProviderTypeVolcEngine + "-clb"
  const DeploymentProviderTypeVolcEngineDCDN: DeploymentProviderType := AccessProviderTypeVolcEngine + "-dcdn"
  const DeploymentProviderTypeVolcEngineImageX: DeploymentProviderType := AccessProviderTypeVolcEngine + "-imagex"
  const DeploymentProviderTypeVolcEngineLive: DeploymentProviderType := AccessProviderTypeVolcEngine + "-live"
  const DeploymentProviderTypeVolcEngineTOS: DeploymentProviderType := AccessProviderTypeVolcEngine + "-tos"
  const DeploymentProviderTypeWangsuCDN: DeploymentProviderType := AccessProviderTypeWangsu + "-cdn"
  const DeploymentProviderTypeWangsuCDNPro: DeploymentProviderType := AccessProviderTypeWangsu + "-cdnpro"
  const DeploymentProviderTypeWangsuCertificate: DeploymentProviderType := AccessProviderTypeWangsu + "-certificate"
  const DeploymentProviderTypeWebhook: DeploymentProviderType := AccessProviderTypeWebhook

  const DeploymentBlock0: seq<DeploymentProviderType> := [DeploymentProviderType1PanelConsole,
    DeploymentProviderType1PanelSite, DeploymentProviderTypeAliyunALB,
    DeploymentProviderTypeAliyunAPIGW, DeploymentProviderTypeAliyunCAS,
    DeploymentProviderTypeAliyunCASDeploy, DeploymentProviderTypeAliyunCDN,
    DeploymentProviderTypeAliyunCLB]
  const DeploymentBlock1: seq<DeploymentProviderType> := [DeploymentProviderTypeAliyunDCDN,
    DeploymentProviderTypeAliyunDDoS, DeploymentProviderTypeAliyunESA,
    DeploymentProviderTypeAliyunFC, DeploymentProviderTypeAliyunGA,
    DeploymentProviderTypeAliyunLive, DeploymentProviderTypeAliyunNLB,
    DeploymentProviderTypeAliyunOSS]
  const DeploymentBlock2: seq<DeploymentProviderType> := [DeploymentProviderTypeAliyunVOD,
    DeploymentProviderTypeAliyunWAF, DeploymentProviderTypeAPISIX, DeploymentProviderTypeAWSACM,
    DeploymentProviderTypeAWSCloudFront, DeploymentProviderTypeAWSIAM,
    DeploymentProviderTypeAzureKeyVault, DeploymentProviderTypeBaiduCloudAppBLB]
  const DeploymentBlock3: seq<DeploymentProviderType> := [DeploymentProviderTypeBaiduCloudBLB,
    DeploymentProviderTypeBaiduCloudCDN, DeploymentProviderTypeBaiduCloudCert,
    DeploymentProviderTypeBaishanCDN, DeploymentProviderTypeBaotaPanelConsole,
    DeploymentProviderTypeBaotaPanelSite, DeploymentProviderTypeBaotaWAFConsole,
    DeploymentProviderTypeBaotaWAFSite]
  const DeploymentBlock4: seq<DeploymentProviderType> := [DeploymentProviderTypeBunnyCDN,
    DeploymentProviderTypeBytePlusCDN, DeploymentProviderTypeCacheFly,
    DeploymentProviderTypeCdnfly, DeploymentProviderTypeCTCCCloudAO,
    DeploymentProviderTypeCTCCCloudCDN, DeploymentProviderTypeCTCCCloudCMS,
    DeploymentProviderTypeCTCCCloudELB]
  const DeploymentBlock5: seq<DeploymentProviderType> := [DeploymentProviderTypeCTCCCloudICDN,
    DeploymentProviderTypeCTCCCloudLVDN, DeploymentProviderTypeDogeCloudCDN,
    DeploymentProviderTypeEdgioApplications, DeploymentProviderTypeFlexCDN,
    DeploymentProviderTypeGcoreCDN, DeploymentProviderTypeGoEdge,
    DeploymentProviderTypeHuaweiCloudCDN]
  const DeploymentBlock6: seq<DeploymentProviderType> := [DeploymentProviderTypeHuaweiCloudELB,
    DeploymentProviderTypeHuaweiCloudSCM, DeploymentProviderTypeHuaweiCloudWAF,
    DeploymentProviderTypeJDCloudALB, DeploymentProviderTypeJDCloudCDN,
    DeploymentProviderTypeJDCloudLive, DeploymentProviderTypeJDCloudVOD, DeploymentProviderTypeKong]
  const DeploymentBlock7: seq<DeploymentProviderType> := [DeploymentProviderTypeKubernetesSecret,
    DeploymentProviderTypeLeCDN, DeploymentProviderTypeLocal, DeploymentProviderTypeNetlifySite,
    DeploymentProviderTypeProxmoxVE, DeploymentProviderTypeQiniuCDN,
    DeploymentProviderTypeQiniuKodo, DeploymentProviderTypeQiniuPili]
  const DeploymentBlock8: seq<DeploymentProviderType> := [DeploymentProviderTypeRainYunRCDN,
    DeploymentProviderTypeRatPanelConsole, DeploymentProviderTypeRatPanelSite,
    DeploymentProviderTypeSafeLine, DeploymentProviderTypeSSH,
    DeploymentProviderTypeTencentCloudCDN, DeploymentProviderTypeTencentCloudCLB]
  const DeploymentBlock9: seq<DeploymentProviderType> := [DeploymentProviderTypeTencentCloudCOS,
    DeploymentProviderTypeTencentCloudCSS, DeploymentProviderTypeTencentCloudECDN,
    DeploymentProviderTypeTencentCloudEO, DeploymentProviderTypeTencentCloudGAAP,
    DeploymentProviderTypeTencentCloudSCF, DeploymentProviderTypeTencentCloudSSL]
  const DeploymentBlock10: seq<DeploymentProviderType> := [
    DeploymentProviderTypeTencentCloudSSLDeploy, DeploymentProviderTypeTencentCloudSSLUpdate,
    DeploymentProviderTypeTencentCloudVOD, DeploymentProviderTypeTencentCloudWAF,
    DeploymentProviderTypeUCloudUCDN, DeploymentProviderTypeUCloudUS3,
    DeploymentProviderTypeUniCloudWebHost]
  const DeploymentBlock11: seq<DeploymentProviderType> := [DeploymentProviderTypeUpyunCDN,
    DeploymentProviderTypeUpyunFile, DeploymentProviderTypeVolcEngineALB,
    DeploymentProviderTypeVolcEngineCDN, DeploymentProviderTypeVolcEngineCertCenter,
    DeploymentProviderTypeVolcEngineCLB, DeploymentProviderTypeVolcEngineDCDN]
  const DeploymentBlock12: seq<DeploymentProviderType> := [DeploymentProviderTypeVolcEngineImageX,
    DeploymentProviderTypeVolcEngineLive, DeploymentProviderTypeVolcEngineTOS,
    DeploymentProviderTypeWangsuCDN, DeploymentProviderTypeWangsuCDNPro,
    DeploymentProviderTypeWangsuCertificate, DeploymentProviderTypeWebhook]

  /** All deployment provider types, in declaration order. */
  const DeploymentProviderTypes: seq<DeploymentProviderType> :=
    DeploymentBlock0 + DeploymentBlock1 + DeploymentBlock2 + DeploymentBlock3 +
    DeploymentBlock4 + DeploymentBlock5 + DeploymentBlock6 + DeploymentBlock7 +
    DeploymentBlock8 + DeploymentBlock9 + DeploymentBlock10 + DeploymentBlock11 +
    DeploymentBlock12

  const DeploymentSortedBlock0: seq<DeploymentProviderType> := [
    DeploymentProviderType1PanelConsole, DeploymentProviderType1PanelSite,
    DeploymentProviderTypeAliyunALB, DeploymentProviderTypeAliyunAPIGW,
    DeploymentProviderTypeAliyunCAS, DeploymentProviderTypeAliyunCASDeploy,
    DeploymentProviderTypeAliyunCDN, DeploymentProviderTypeAliyunCLB]
  const DeploymentSortedBlock1: seq<DeploymentProviderType> := [DeploymentProviderTypeAliyunDCDN,
    DeploymentProviderTypeAliyunDDoS, DeploymentProviderTypeAliyunESA,
    DeploymentProviderTypeAliyunFC, DeploymentProviderTypeAliyunGA,
    DeploymentProviderTypeAliyunLive, DeploymentProviderTypeAliyunNLB,
    DeploymentProviderTypeAliyunOSS]
  const DeploymentSortedBlock2: seq<DeploymentProviderType> := [DeploymentProviderTypeAliyunVOD,
    DeploymentProviderTypeAliyunWAF, DeploymentProviderTypeAWSACM, DeploymentProviderTypeAPISIX,
    DeploymentProviderTypeAWSCloudFront, DeploymentProviderTypeAWSIAM,
    DeploymentProviderTypeAzureKeyVault, DeploymentProviderTypeBaiduCloudAppBLB]
  const DeploymentSortedBlock3: seq<DeploymentProviderType> := [
    DeploymentProviderTypeBaiduCloudBLB, DeploymentProviderTypeBaiduCloudCDN,
    DeploymentProviderTypeBaiduCloudCert, DeploymentProviderTypeBaishanCDN,
    DeploymentProviderTypeBaotaPanelConsole, DeploymentProviderTypeBaotaPanelSite,
    DeploymentProviderTypeBaotaWAFConsole, DeploymentProviderTypeBaotaWAFSite]
  const DeploymentSortedBlock4: seq<DeploymentProviderType> := [DeploymentProviderTypeBunnyCDN,
    DeploymentProviderTypeBytePlusCDN, DeploymentProviderTypeCacheFly,
    DeploymentProviderTypeCdnfly, DeploymentProviderTypeCTCCCloudAO,
    DeploymentProviderTypeCTCCCloudCDN, DeploymentProviderTypeCTCCCloudCMS,
    DeploymentProviderTypeCTCCCloudELB]
  const DeploymentSortedBlock5: seq<DeploymentProviderType> := [
    DeploymentProviderTypeCTCCCloudICDN, DeploymentProviderTypeCTCCCloudLVDN,
    DeploymentProviderTypeDogeCloudCDN, DeploymentProviderTypeEdgioApplications,
    DeploymentProviderTypeFlexCDN, DeploymentProviderTypeGcoreCDN, DeploymentProviderTypeGoEdge,
    DeploymentProviderTypeHuaweiCloudCDN]
  const DeploymentSortedBlock6: seq<DeploymentProviderType> := [
    DeploymentProviderTypeHuaweiCloudELB, DeploymentProviderTypeHuaweiCloudSCM,
    DeploymentProviderTypeHuaweiCloudWAF, DeploymentProviderTypeJDCloudALB,
    DeploymentProviderTypeJDCloudCDN, DeploymentProviderTypeJDCloudLive,
    DeploymentProviderTypeJDCloudVOD, DeploymentProviderTypeKubernetesSecret]
  const DeploymentSortedBlock7: seq<DeploymentProviderType> := [DeploymentProviderTypeKong,
    DeploymentProviderTypeLeCDN, DeploymentProviderTypeLocal, DeploymentProviderTypeNetlifySite,
    DeploymentProviderTypeProxmoxVE, DeploymentProviderTypeQiniuCDN,
    DeploymentProviderTypeQiniuKodo, DeploymentProviderTypeQiniuPili]
  const DeploymentSortedBlock8: seq<DeploymentProviderType> := [DeploymentProviderTypeRainYunRCDN,
    DeploymentProviderTypeRatPanelConsole, DeploymentProviderTypeRatPanelSite,
    DeploymentProviderTypeSafeLine, DeploymentProviderTypeSSH,
    DeploymentProviderTypeTencentCloudCDN, DeploymentProviderTypeTencentCloudCLB]
  const DeploymentSortedBlock9: seq<DeploymentProviderType> := [
    DeploymentProviderTypeTencentCloudCOS, DeploymentProviderTypeTencentCloudCSS,
    DeploymentProviderTypeTencentCloudECDN, DeploymentProviderTypeTencentCloudEO,
    DeploymentProviderTypeTencentCloudGAAP, DeploymentProviderTypeTencentCloudSCF,
    DeploymentProviderTypeTencentCloudSSL]
  const DeploymentSortedBlock10: seq<DeploymentProviderType> := [
    DeploymentProviderTypeTencentCloudSSLDeploy, DeploymentProviderTypeTencentCloudSSLUpdate,
    DeploymentProviderTypeTencentCloudVOD, DeploymentProviderTypeTencentCloudWAF,
    DeploymentProviderTypeUCloudUCDN, DeploymentProviderTypeUCloudUS3,
    DeploymentProviderTypeUniCloudWebHost]
  const DeploymentSortedBlock11: seq<DeploymentProviderType> := [DeploymentProviderTypeUpyunCDN,
    DeploymentProviderTypeUpyunFile, DeploymentProviderTypeVolcEngineALB,
    DeploymentProviderTypeVolcEngineCDN, DeploymentProviderTypeVolcEngineCertCenter,
    DeploymentProviderTypeVolcEngineCLB, DeploymentProviderTypeVolcEngineDCDN]
  const DeploymentSortedBlock12: seq<DeploymentProviderType> := [
    DeploymentProviderTypeVolcEngineImageX, DeploymentProviderTypeVolcEngineLive,
    DeploymentProviderTypeVolcEngineTOS, DeploymentProviderTypeWangsuCDN,
    DeploymentProviderTypeWangsuCDNPro, DeploymentProviderTypeWangsuCertificate,
    DeploymentProviderTypeWebhook]

  /** The same deployment provider types, in ASCII order. */
  const DeploymentProviderTypesInAsciiOrder: seq<DeploymentProviderType> :=
    DeploymentSortedBlock0 + DeploymentSortedBlock1 + DeploymentSortedBlock2 +
    DeploymentSortedBlock3 + DeploymentSortedBlock4 + DeploymentSortedBlock5 +
    DeploymentSortedBlock6 + DeploymentSortedBlock7 + DeploymentSortedBlock8 +
    DeploymentSortedBlock9 + DeploymentSortedBlock10 + DeploymentSortedBlock11 +
    DeploymentSortedBlock12

  lemma DeploymentSortedBlock0Ordered()
    ensures Ordered(DeploymentSortedBlock0)
    ensures forall x | x in DeploymentSortedBlock0 :: x in DeploymentProviderTypes
  {
    assert LessAt(DeploymentProviderType1PanelConsole, DeploymentProviderType1PanelSite, 7);
    assert LessAt(DeploymentProviderType1PanelSite, DeploymentProviderTypeAliyunALB, 0);
    assert LessAt(DeploymentProviderTypeAliyunALB, DeploymentProviderTypeAliyunAPIGW, 8);
    assert LessAt(DeploymentProviderTypeAliyunAPIGW, DeploymentProviderTypeAliyunCAS, 7);
    assert LessAt(DeploymentProviderTypeAliyunCAS, DeploymentProviderTypeAliyunCASDeploy, 10);
    assert LessAt(DeploymentProviderTypeAliyunCASDeploy, DeploymentProviderTypeAliyunCDN, 8);
    assert LessAt(DeploymentProviderTypeAliyunCDN, DeploymentProviderTypeAliyunCLB, 8);
  }

  lemma DeploymentSortedBlock1Ordered()
    ensures Ordered(DeploymentSortedBlock1)
    ensures forall x | x in DeploymentSortedBlock1 :: x in DeploymentProviderTypes
  {
    assert LessAt(DeploymentProviderTypeAliyunDCDN, DeploymentProviderTypeAliyunDDoS, 8);
    assert LessAt(DeploymentProviderTypeAliyunDDoS, DeploymentProviderTypeAliyunESA, 7);
    assert LessAt(DeploymentProviderTypeAliyunESA, DeploymentProviderTypeAliyunFC, 7);
    assert LessAt(DeploymentProviderTypeAliyunFC, DeploymentProviderTypeAliyunGA, 7);
    assert LessAt(DeploymentProviderTypeAliyunGA, DeploymentProviderTypeAliyunLive, 7);
    assert LessAt(DeploymentProviderTypeAliyunLive, DeploymentProviderTypeAliyunNLB, 7);
    assert LessAt(DeploymentProviderTypeAliyunNLB, DeploymentProviderTypeAliyunOSS, 7);
  }

  lemma DeploymentSortedBlock2Ordered()
    ensures Ordered(DeploymentSortedBlock2)
    ensures forall x | x in DeploymentSortedBlock2 :: x in DeploymentProviderTypes
  {
    assert LessAt(DeploymentProviderTypeAliyunVOD, DeploymentProviderTypeAliyunWAF, 7);
    assert LessAt(DeploymentProviderTypeAliyunWAF, DeploymentProviderTypeAWSACM, 1);
    assert LessAt(DeploymentProviderTypeAWSACM, DeploymentProviderTypeAPISIX, 5);
    assert LessAt(DeploymentProviderTypeAPISIX, DeploymentProviderTypeAWSCloudFront, 4);
    assert LessAt(DeploymentProviderTypeAWSCloudFront, DeploymentProviderTypeAWSIAM, 4);
    assert LessAt(DeploymentProviderTypeAWSIAM, DeploymentProviderTypeAzureKeyVault, 1);
    assert LessAt(DeploymentProviderTypeAzureKeyVault, DeploymentProviderTypeBaiduCloudAppBLB, 0);
  }

  lemma DeploymentSortedBlock3Ordered()
    ensures Ordered(DeploymentSortedBlock3)
    ensures forall x | x in DeploymentSortedBlock3 :: x in DeploymentProviderTypes
  {
    assert LessAt(DeploymentProviderTypeBaiduCloudBLB, DeploymentProviderTypeBaiduCloudCDN, 11);
    assert LessAt(DeploymentProviderTypeBaiduCloudCDN, DeploymentProviderTypeBaiduCloudCert, 12);
    assert LessAt(DeploymentProviderTypeBaiduCloudCert, DeploymentProviderTypeBaishanCDN, 3);
    assert LessAt(DeploymentProviderTypeBaishanCDN, DeploymentProviderTypeBaotaPanelConsole, 2);
    assert LessAt(DeploymentProviderTypeBaotaPanelConsole, DeploymentProviderTypeBaotaPanelSite, 11);
    assert LessAt(DeploymentProviderTypeBaotaPanelSite, DeploymentProviderTypeBaotaWAFConsole, 5);
    assert LessAt(DeploymentProviderTypeBaotaWAFConsole, DeploymentProviderTypeBaotaWAFSite, 9);
  }

  lemma DeploymentSortedBlock4Ordered()
    ensures Ordered(DeploymentSortedBlock4)
    ensures forall x | x in DeploymentSortedBlock4 :: x in DeploymentProviderTypes
  {
    assert LessAt(DeploymentProviderTypeBunnyCDN, DeploymentProviderTypeBytePlusCDN, 1);
    assert LessAt(DeploymentProviderTypeBytePlusCDN, DeploymentProviderTypeCacheFly, 0);
    assert LessAt(DeploymentProviderTypeCacheFly, DeploymentProviderTypeCdnfly, 1);
    assert LessAt(DeploymentProviderTypeCdnfly, DeploymentProviderTypeCTCCCloudAO, 1);
    assert LessAt(DeploymentProviderTypeCTCCCloudAO, DeploymentProviderTypeCTCCCloudCDN, 10);
    assert LessAt(DeploymentProviderTypeCTCCCloudCDN, DeploymentProviderTypeCTCCCloudCMS, 11);
    assert LessAt(DeploymentProviderTypeCTCCCloudCMS, DeploymentProviderTypeCTCCCloudELB, 10);
  }

  lemma DeploymentSortedBlock5Ordered()
    ensures Ordered(DeploymentSortedBlock5)
    ensures forall x | x in DeploymentSortedBlock5 :: x in DeploymentProviderTypes
  {
    assert LessAt(DeploymentProviderTypeCTCCCloudICDN, DeploymentProviderTypeCTCCCloudLVDN, 10);
    assert LessAt(DeploymentProviderTypeCTCCCloudLVDN, DeploymentProviderTypeDogeCloudCDN, 0);
    assert LessAt(DeploymentProviderTypeDogeCloudCDN, DeploymentProviderTypeEdgioApplications, 0);
    assert LessAt(DeploymentProviderTypeEdgioApplications, DeploymentProviderTypeFlexCDN, 0);
    assert LessAt(DeploymentProviderTypeFlexCDN, DeploymentProviderTypeGcoreCDN, 0);
    assert LessAt(DeploymentProviderTypeGcoreCDN, DeploymentProviderTypeGoEdge, 1);
    assert LessAt(DeploymentProviderTypeGoEdge, DeploymentProviderTypeHuaweiCloudCDN, 0);
  }

  lemma DeploymentSortedBlock6Ordered()
    ensures Ordered(DeploymentSortedBlock6)
    ensures forall x | x in DeploymentSortedBlock6 :: x in DeploymentProviderTypes
  {
    assert LessAt(DeploymentProviderTypeHuaweiCloudELB, DeploymentProviderTypeHuaweiCloudSCM, 12);
    assert LessAt(DeploymentProviderTypeHuaweiCloudSCM, DeploymentProviderTypeHuaweiCloudWAF, 12);
    assert LessAt(DeploymentProviderTypeHuaweiCloudWAF, DeploymentProviderTypeJDCloudALB, 0);
    assert LessAt(DeploymentProviderTypeJDCloudALB, DeploymentProviderTypeJDCloudCDN, 8);
    assert LessAt(DeploymentProviderTypeJDCloudCDN, DeploymentProviderTypeJDCloudLive, 8);
    assert LessAt(DeploymentProviderTypeJDCloudLive, DeploymentProviderTypeJDCloudVOD, 8);
    assert LessAt(DeploymentProviderTypeJDCloudVOD, DeploymentProviderTypeKubernetesSecret, 0);
  }

  lemma DeploymentSortedBlock7Ordered()
    ensures Ordered(DeploymentSortedBlock7)
    ensures forall x | x in DeploymentSortedBlock7 :: x in DeploymentProviderTypes
  {
    assert LessAt(DeploymentProviderTypeKong, DeploymentProviderTypeLeCDN, 0);
    assert LessAt(DeploymentProviderTypeLeCDN, DeploymentProviderTypeLocal, 1);
    assert LessAt(DeploymentProviderTypeLocal, DeploymentProviderTypeNetlifySite, 0);
    assert LessAt(DeploymentProviderTypeNetlifySite, DeploymentProviderTypeProxmoxVE, 0);
    assert LessAt(DeploymentProviderTypeProxmoxVE, DeploymentProviderTypeQiniuCDN, 0);
    assert LessAt(DeploymentProviderTypeQiniuCDN, DeploymentProviderTypeQiniuKodo, 6);
    assert LessAt(DeploymentProviderTypeQiniuKodo, DeploymentProviderTypeQiniuPili, 6);
  }

  lemma DeploymentSortedBlock8Ordered()
    ensures Ordered(DeploymentSortedBlock8)
    ensures forall x | x in DeploymentSortedBlock8 :: x in DeploymentProviderTypes
  {
    assert LessAt(DeploymentProviderTypeRainYunRCDN, DeploymentProviderTypeRatPanelConsole, 2);
    assert LessAt(DeploymentProviderTypeRatPanelConsole, DeploymentProviderTypeRatPanelSite, 9);
    assert LessAt(DeploymentProviderTypeRatPanelSite, DeploymentProviderTypeSafeLine, 0);
    assert LessAt(DeploymentProviderTypeSafeLine, DeploymentProviderTypeSSH, 1);
    assert LessAt(DeploymentProviderTypeSSH, DeploymentProviderTypeTencentCloudCDN, 0);
    assert LessAt(DeploymentProviderTypeTencentCloudCDN, DeploymentProviderTypeTencentCloudCLB, 14);
  }

  lemma DeploymentSortedBlock9Ordered()
    ensures Ordered(DeploymentSortedBlock9)
    ensures forall x | x in DeploymentSortedBlock9 :: x in DeploymentProviderTypes
  {
    assert LessAt(DeploymentProviderTypeTencentCloudCOS, DeploymentProviderTypeTencentCloudCSS, 14);
    assert LessAt(DeploymentProviderTypeTencentCloudCSS, DeploymentProviderTypeTencentCloudECDN, 13);
    assert LessAt(DeploymentProviderTypeTencentCloudECDN, DeploymentProviderTypeTencentCloudEO, 14);
    assert LessAt(DeploymentProviderTypeTencentCloudEO, DeploymentProviderTypeTencentCloudGAAP, 13);
    assert LessAt(DeploymentProviderTypeTencentCloudGAAP, DeploymentProviderTypeTencentCloudSCF, 13);
    assert LessAt(DeploymentProviderTypeTencentCloudSCF, DeploymentProviderTypeTencentCloudSSL, 14);
  }

  lemma DeploymentSortedBlock10Ordered()
    ensures Ordered(DeploymentSortedBlock10)
    ensures forall x | x in DeploymentSortedBlock10 :: x in DeploymentProviderTypes
  {
    assert LessAt(DeploymentProviderTypeTencentCloudSSLDeploy, DeploymentProviderTypeTencentCloudSSLUpdate, 16);
    assert LessAt(DeploymentProviderTypeTencentCloudSSLUpdate, DeploymentProviderTypeTencentCloudVOD, 13);
    assert LessAt(DeploymentProviderTypeTencentCloudVOD, DeploymentProviderTypeTencentCloudWAF, 13);
    assert LessAt(DeploymentProviderTypeTencentCloudWAF, DeploymentProviderTypeUCloudUCDN, 0);
    assert LessAt(DeploymentProviderTypeUCloudUCDN, DeploymentProviderTypeUCloudUS3, 8);
    assert LessAt(DeploymentProviderTypeUCloudUS3, DeploymentProviderTypeUniCloudWebHost, 1);
  }

  lemma DeploymentSortedBlock11Ordered()
    ensures Ordered(DeploymentSortedBlock11)
    ensures forall x | x in DeploymentSortedBlock11 :: x in DeploymentProviderTypes
  {
    assert LessAt(DeploymentProviderTypeUpyunCDN, DeploymentProviderTypeUpyunFile, 6);
    assert LessAt(DeploymentProviderTypeUpyunFile, DeploymentProviderTypeVolcEngineALB, 0);
    assert LessAt(DeploymentProviderTypeVolcEngineALB, DeploymentProviderTypeVolcEngineCDN, 11);
    assert LessAt(DeploymentProviderTypeVolcEngineCDN, DeploymentProviderTypeVolcEngineCertCenter, 12);
    assert LessAt(DeploymentProviderTypeVolcEngineCertCenter, DeploymentProviderTypeVolcEngineCLB, 12);
    assert LessAt(DeploymentProviderTypeVolcEngineCLB, DeploymentProviderTypeVolcEngineDCDN, 11);
  }

  lemma DeploymentSortedBlock12Ordered()
    ensures Ordered(DeploymentSortedBlock12)
    ensures forall x | x in DeploymentSortedBlock12 :: x in DeploymentProviderTypes
  {
    assert LessAt(DeploymentProviderTypeVolcEngineImageX, DeploymentProviderTypeVolcEngineLive, 11);
    assert LessAt(DeploymentProviderTypeVolcEngineLive, DeploymentProviderTypeVolcEngineTOS, 11);
    assert LessAt(DeploymentProviderTypeVolcEngineTOS, DeploymentProviderTypeWangsuCDN, 0);
    assert LessAt(DeploymentProviderTypeWangsuCDN, DeploymentProviderTypeWangsuCDNPro, 10);
    assert LessAt(DeploymentProviderTypeWangsuCDNPro, DeploymentProviderTypeWangsuCertificate, 8);
    assert LessAt(DeploymentProviderTypeWangsuCertificate, DeploymentProviderTypeWebhook, 1);
  }

  /** The first seven blocks of the sorted deployment family are in order. */
  lemma DeploymentSortedHeadOrdered()
    ensures Ordered(DeploymentSortedBlock0 + DeploymentSortedBlock1 + DeploymentSortedBlock2 + DeploymentSortedBlock3 + DeploymentSortedBlock4 + DeploymentSortedBlock5 + DeploymentSortedBlock6)
  {
    DeploymentSortedBlock0Ordered();
    DeploymentSortedBlock1Ordered();
    assert LessAt(DeploymentProviderTypeAliyunCLB, DeploymentProviderTypeAliyunDCDN, 7);
    OrderedAppend(DeploymentSortedBlock0, DeploymentSortedBlock1);
    DeploymentSortedBlock2Ordered();
    assert LessAt(DeploymentProviderTypeAliyunOSS, DeploymentProviderTypeAliyunVOD, 7);
    OrderedAppend(DeploymentSortedBlock0 + DeploymentSortedBlock1, DeploymentSortedBlock2);
    DeploymentSortedBlock3Ordered();
    assert LessAt(DeploymentProviderTypeBaiduCloudAppBLB, DeploymentProviderTypeBaiduCloudBLB, 11);
    OrderedAppend(DeploymentSortedBlock0 + DeploymentSortedBlock1 + DeploymentSortedBlock2, DeploymentSortedBlock3);
    DeploymentSortedBlock4Ordered();
    assert LessAt(DeploymentProviderTypeBaotaWAFSite, DeploymentProviderTypeBunnyCDN, 1);
    OrderedAppend(DeploymentSortedBlock0 + DeploymentSortedBlock1 + DeploymentSortedBlock2 + DeploymentSortedBlock3, DeploymentSortedBlock4);
    DeploymentSortedBlock5Ordered();
    assert LessAt(DeploymentProviderTypeCTCCCloudELB, DeploymentProviderTypeCTCCCloudICDN, 10);
    OrderedAppend(DeploymentSortedBlock0 + DeploymentSortedBlock1 + DeploymentSortedBlock2 + DeploymentSortedBlock3 + DeploymentSortedBlock4, DeploymentSortedBlock5);
    DeploymentSortedBlock6Ordered();
    assert LessAt(DeploymentProviderTypeHuaweiCloudCDN, DeploymentProviderTypeHuaweiCloudELB, 12);
    OrderedAppend(DeploymentSortedBlock0 + DeploymentSortedBlock1 + DeploymentSortedBlock2 + DeploymentSortedBlock3 + DeploymentSortedBlock4 + DeploymentSortedBlock5, DeploymentSortedBlock6);
  }

  lemma DeploymentProviderTypesInAsciiOrderOrdered()
    ensures Ordered(DeploymentProviderTypesInAsciiOrder)
  {
    DeploymentSortedHeadOrdered();
    DeploymentSortedBlock7Ordered();
    assert LessAt(DeploymentProviderTypeKubernetesSecret, DeploymentProviderTypeKong, 1);
    OrderedAppend(DeploymentSortedBlock0 + DeploymentSortedBlock1 + DeploymentSortedBlock2 + DeploymentSortedBlock3 + DeploymentSortedBlock4 + DeploymentSortedBlock5 + DeploymentSortedBlock6, DeploymentSortedBlock7);
    DeploymentSortedBlock8Ordered();
    assert LessAt(DeploymentProviderTypeQiniuPili, DeploymentProviderTypeRainYunRCDN, 0);
    OrderedAppend(DeploymentSortedBlock0 + DeploymentSortedBlock1 + DeploymentSortedBlock2 + DeploymentSortedBlock3 + DeploymentSortedBlock4 + DeploymentSortedBlock5 + DeploymentSortedBlock6 + DeploymentSortedBlock7, DeploymentSortedBlock8);
    DeploymentSortedBlock9Ordered();
    assert LessAt(DeploymentProviderTypeTencentCloudCLB, DeploymentProviderTypeTencentCloudCOS, 14);
    OrderedAppend(DeploymentSortedBlock0 + DeploymentSortedBlock1 + DeploymentSortedBlock2 + DeploymentSortedBlock3 + DeploymentSortedBlock4 + DeploymentSortedBlock5 + DeploymentSortedBlock6 + DeploymentSortedBlock7 + DeploymentSortedBlock8, DeploymentSortedBlock9);
    DeploymentSortedBlock10Ordered();
    assert LessAt(DeploymentProviderTypeTencentCloudSSL, DeploymentProviderTypeTencentCloudSSLDeploy, 16);
    OrderedAppend(DeploymentSortedBlock0 + DeploymentSortedBlock1 + DeploymentSortedBlock2 + DeploymentSortedBlock3 + DeploymentSortedBlock4 + DeploymentSortedBlock5 + DeploymentSortedBlock6 + DeploymentSortedBlock7 + DeploymentSortedBlock8 + DeploymentSortedBlock9, DeploymentSortedBlock10);
    DeploymentSortedBlock11Ordered();
    assert LessAt(DeploymentProviderTypeUniCloudWebHost, DeploymentProviderTypeUpyunCDN, 1);
    OrderedAppend(DeploymentSortedBlock0 + DeploymentSortedBlock1 + DeploymentSortedBlock2 + DeploymentSortedBlock3 + DeploymentSortedBlock4 + DeploymentSortedBlock5 + DeploymentSortedBlock6 + DeploymentSortedBlock7 + DeploymentSortedBlock8 + DeploymentSortedBlock9 + DeploymentSortedBlock10, DeploymentSortedBlock11);
    DeploymentSortedBlock12Ordered();
    assert LessAt(DeploymentProviderTypeVolcEngineDCDN, DeploymentProviderTypeVolcEngineImageX, 11);
    OrderedAppend(DeploymentSortedBlock0 + DeploymentSortedBlock1 + DeploymentSortedBlock2 + DeploymentSortedBlock3 + DeploymentSortedBlock4 + DeploymentSortedBlock5 + DeploymentSortedBlock6 + DeploymentSortedBlock7 + DeploymentSortedBlock8 + DeploymentSortedBlock9 + DeploymentSortedBlock10 + DeploymentSortedBlock11, DeploymentSortedBlock12);
  }

  lemma DeploymentBlock0Facts()
    ensures forall v | v in DeploymentBlock0 :: PrefixedByAccess(v, AccessProviderTypes)
    ensures forall x | x in DeploymentBlock0 :: x in DeploymentProviderTypesInAsciiOrder
  {
    assert HasAccessPrefix(DeploymentProviderType1PanelConsole, AccessProviderType1Panel);
    assert HasAccessPrefix(DeploymentProviderType1PanelSite, AccessProviderType1Panel);
    assert HasAccessPrefix(DeploymentProviderTypeAliyunALB, AccessProviderTypeAliyun);
    assert HasAccessPrefix(DeploymentProviderTypeAliyunAPIGW, AccessProviderTypeAliyun);
    assert HasAccessPrefix(DeploymentProviderTypeAliyunCAS, AccessProviderTypeAliyun);
    assert HasAccessPrefix(DeploymentProviderTypeAliyunCASDeploy, AccessProviderTypeAliyun);
    assert HasAccessPrefix(DeploymentProviderTypeAliyunCDN, AccessProviderTypeAliyun);
    assert HasAccessPrefix(DeploymentProviderTypeAliyunCLB, AccessProviderTypeAliyun);
  }

  lemma DeploymentBlock1Facts()
    ensures forall v | v in DeploymentBlock1 :: PrefixedByAccess(v, AccessProviderTypes)
    ensures forall x | x in DeploymentBlock1 :: x in DeploymentProviderTypesInAsciiOrder
  {
    assert HasAccessPrefix(DeploymentProviderTypeAliyunDCDN, AccessProviderTypeAliyun);
    assert HasAccessPrefix(DeploymentProviderTypeAliyunDDoS, AccessProviderTypeAliyun);
    assert HasAccessPrefix(DeploymentProviderTypeAliyunESA, AccessProviderTypeAliyun);
    assert HasAccessPrefix(DeploymentProviderTypeAliyunFC, AccessProviderTypeAliyun);
    assert HasAccessPrefix(DeploymentProviderTypeAliyunGA, AccessProviderTypeAliyun);
    assert HasAccessPrefix(DeploymentProviderTypeAliyunLive, AccessProviderTypeAliyun);
    assert HasAccessPrefix(DeploymentProviderTypeAliyunNLB, AccessProviderTypeAliyun);
    assert HasAccessPrefix(DeploymentProviderTypeAliyunOSS, AccessProviderTypeAliyun);
  }

  lemma DeploymentBlock2Facts()
    ensures forall v | v in DeploymentBlock2 :: PrefixedByAccess(v, AccessProviderTypes)
    ensures forall x | x in DeploymentBlock2 :: x in DeploymentProviderTypesInAsciiOrder
  {
    assert HasAccessPrefix(DeploymentProviderTypeAliyunVOD, AccessProviderTypeAliyun);
    assert HasAccessPrefix(DeploymentProviderTypeAliyunWAF, AccessProviderTypeAliyun);
    assert HasAccessPrefix(DeploymentProviderTypeAPISIX, AccessProviderTypeAWS);
    assert HasAccessPrefix(DeploymentProviderTypeAWSACM, AccessProviderTypeAWS);
    assert HasAccessPrefix(DeploymentProviderTypeAWSCloudFront, AccessProviderTypeAWS);
    assert HasAccessPrefix(DeploymentProviderTypeAWSIAM, AccessProviderTypeAWS);
    assert HasAccessPrefix(DeploymentProviderTypeAzureKeyVault, AccessProviderTypeAzure);
    assert HasAccessPrefix(DeploymentProviderTypeBaiduCloudAppBLB, AccessProviderTypeBaiduCloud);
  }

  lemma DeploymentBlock3Facts()
    ensures forall v | v in DeploymentBlock3 :: PrefixedByAccess(v, AccessProviderTypes)
    ensures forall x | x in DeploymentBlock3 :: x in DeploymentProviderTypesInAsciiOrder
  {
    assert HasAccessPrefix(DeploymentProviderTypeBaiduCloudBLB, AccessProviderTypeBaiduCloud);
    assert HasAccessPrefix(DeploymentProviderTypeBaiduCloudCDN, AccessProviderTypeBaiduCloud);
    assert HasAccessPrefix(DeploymentProviderTypeBaiduCloudCert, AccessProviderTypeBaiduCloud);
    assert HasAccessPrefix(DeploymentProviderTypeBaishanCDN, AccessProviderTypeBaishan);
    assert HasAccessPrefix(DeploymentProviderTypeBaotaPanelConsole, AccessProviderTypeBaotaPanel);
    assert HasAccessPrefix(DeploymentProviderTypeBaotaPanelSite, AccessProviderTypeBaotaPanel);
    assert HasAccessPrefix(DeploymentProviderTypeBaotaWAFConsole, AccessProviderTypeBaotaWAF);
    assert HasAccessPrefix(DeploymentProviderTypeBaotaWAFSite, AccessProviderTypeBaotaWAF);
  }

  lemma DeploymentBlock4Facts()
    ensures forall v | v in DeploymentBlock4 :: PrefixedByAccess(v, AccessProviderTypes)
    ensures forall x | x in DeploymentBlock4 :: x in DeploymentProviderTypesInAsciiOrder
  {
    assert HasAccessPrefix(DeploymentProviderTypeBunnyCDN, AccessProviderTypeBunny);
    assert HasAccessPrefix(DeploymentProviderTypeBytePlusCDN, AccessProviderTypeBytePlus);
    assert HasAccessPrefix(DeploymentProviderTypeCacheFly, AccessProviderTypeCacheFly);
    assert HasAccessPrefix(DeploymentProviderTypeCdnfly, AccessProviderTypeCdnfly);
    assert HasAccessPrefix(DeploymentProviderTypeCTCCCloudAO, AccessProviderTypeCTCCCloud);
    assert HasAccessPrefix(DeploymentProviderTypeCTCCCloudCDN, AccessProviderTypeCTCCCloud);
    assert HasAccessPrefix(DeploymentProviderTypeCTCCCloudCMS, AccessProviderTypeCTCCCloud);
    assert HasAccessPrefix(DeploymentProviderTypeCTCCCloudELB, AccessProviderTypeCTCCCloud);
  }

  lemma DeploymentBlock5Facts()
    ensures forall v | v in DeploymentBlock5 :: PrefixedByAccess(v, AccessProviderTypes)
    ensures forall x | x in DeploymentBlock5 :: x in DeploymentProviderTypesInAsciiOrder
  {
    assert HasAccessPrefix(DeploymentProviderTypeCTCCCloudICDN, AccessProviderTypeCTCCCloud);
    assert HasAccessPrefix(DeploymentProviderTypeCTCCCloudLVDN, AccessProviderTypeCTCCCloud);
    assert HasAccessPrefix(DeploymentProviderTypeDogeCloudCDN, AccessProviderTypeDogeCloud);
    assert HasAccessPrefix(DeploymentProviderTypeEdgioApplications, AccessProviderTypeEdgio);
    assert HasAccessPrefix(DeploymentProviderTypeFlexCDN, AccessProviderTypeFlexCDN);
    assert HasAccessPrefix(DeploymentProviderTypeGcoreCDN, AccessProviderTypeGcore);
    assert HasAccessPrefix(DeploymentProviderTypeGoEdge, AccessProviderTypeGoEdge);
    assert HasAccessPrefix(DeploymentProviderTypeHuaweiCloudCDN, AccessProviderTypeHuaweiCloud);
  }

  lemma DeploymentBlock6Facts()
    ensures forall v | v in DeploymentBlock6 :: PrefixedByAccess(v, AccessProviderTypes)
    ensures forall x | x in DeploymentBlock6 :: x in DeploymentProviderTypesInAsciiOrder
  {
    assert HasAccessPrefix(DeploymentProviderTypeHuaweiCloudELB, AccessProviderTypeHuaweiCloud);
    assert HasAccessPrefix(DeploymentProviderTypeHuaweiCloudSCM, AccessProviderTypeHuaweiCloud);
    assert HasAccessPrefix(DeploymentProviderTypeHuaweiCloudWAF, AccessProviderTypeHuaweiCloud);
    assert HasAccessPrefix(DeploymentProviderTypeJDCloudALB, AccessProviderTypeJDCloud);
    assert HasAccessPrefix(DeploymentProviderTypeJDCloudCDN, AccessProviderTypeJDCloud);
    assert HasAccessPrefix(DeploymentProviderTypeJDCloudLive, AccessProviderTypeJDCloud);
    assert HasAccessPrefix(DeploymentProviderTypeJDCloudVOD, AccessProviderTypeJDCloud);
    assert HasAccessPrefix(DeploymentProviderTypeKong, AccessProviderTypeKong);
  }

  lemma DeploymentBlock7Facts()
    ensures forall v | v in DeploymentBlock7 :: PrefixedByAccess(v, AccessProviderTypes)
    ensures forall x | x in DeploymentBlock7 :: x in DeploymentProviderTypesInAsciiOrder
  {
    assert HasAccessPrefix(DeploymentProviderTypeKubernetesSecret, AccessProviderTypeKubernetes);
    assert HasAccessPrefix(DeploymentProviderTypeLeCDN, AccessProviderTypeLeCDN);
    assert HasAccessPrefix(DeploymentProviderTypeLocal, AccessProviderTypeLocal);
    assert HasAccessPrefix(DeploymentProviderTypeNetlifySite, AccessProviderTypeNetlify);
    assert HasAccessPrefix(DeploymentProviderTypeProxmoxVE, AccessProviderTypeProxmoxVE);
    assert HasAccessPrefix(DeploymentProviderTypeQiniuCDN, AccessProviderTypeQiniu);
    assert HasAccessPrefix(DeploymentProviderTypeQiniuKodo, AccessProviderTypeQiniu);
    assert HasAccessPrefix(DeploymentProviderTypeQiniuPili, AccessProviderTypeQiniu);
  }

  lemma DeploymentBlock8Facts()
    ensures forall v | v in DeploymentBlock8 :: PrefixedByAccess(v, AccessProviderTypes)
    ensures forall x | x in DeploymentBlock8 :: x in DeploymentProviderTypesInAsciiOrder
  {
    assert HasAccessPrefix(DeploymentProviderTypeRainYunRCDN, AccessProviderTypeRainYun);
    assert HasAccessPrefix(DeploymentProviderTypeRatPanelConsole, AccessProviderTypeRatPanel);
    assert HasAccessPrefix(DeploymentProviderTypeRatPanelSite, AccessProviderTypeRatPanel);
    assert HasAccessPrefix(DeploymentProviderTypeSafeLine, AccessProviderTypeSafeLine);
    assert HasAccessPrefix(DeploymentProviderTypeSSH, AccessProviderTypeSSH);
    assert HasAccessPrefix(DeploymentProviderTypeTencentCloudCDN, AccessProviderTypeTencentCloud);
    assert HasAccessPrefix(DeploymentProviderTypeTencentCloudCLB, AccessProviderTypeTencentCloud);
  }

  lemma DeploymentBlock9Facts()
    ensures forall v | v in DeploymentBlock9 :: PrefixedByAccess(v, AccessProviderTypes)
    ensures forall x | x in DeploymentBlock9 :: x in DeploymentProviderTypesInAsciiOrder
  {
    assert HasAccessPrefix(DeploymentProviderTypeTencentCloudCOS, AccessProviderTypeTencentCloud);
    assert HasAccessPrefix(DeploymentProviderTypeTencentCloudCSS, AccessProviderTypeTencentCloud);
    assert HasAccessPrefix(DeploymentProviderTypeTencentCloudECDN, AccessProviderTypeTencentCloud);
    assert HasAccessPrefix(DeploymentProviderTypeTencentCloudEO, AccessProviderTypeTencentCloud);
    assert HasAccessPrefix(DeploymentProviderTypeTencentCloudGAAP, AccessProviderTypeTencentCloud);
    assert HasAccessPrefix(DeploymentProviderTypeTencentCloudSCF, AccessProviderTypeTencentCloud);
    assert HasAccessPrefix(DeploymentProviderTypeTencentCloudSSL, AccessProviderTypeTencentCloud);
  }

  lemma DeploymentBlock10Facts()
    ensures forall v | v in DeploymentBlock10 :: PrefixedByAccess(v, AccessProviderTypes)
    ensures forall x | x in DeploymentBlock10 :: x in DeploymentProviderTypesInAsciiOrder
  {
    assert HasAccessPrefix(DeploymentProviderTypeTencentCloudSSLDeploy, AccessProviderTypeTencentCloud);
    assert HasAccessPrefix(DeploymentProviderTypeTencentCloudSSLUpdate, AccessProviderTypeTencentCloud);
    assert HasAccessPrefix(DeploymentProviderTypeTencentCloudVOD, AccessProviderTypeTencentCloud);
    assert HasAccessPrefix(DeploymentProviderTypeTencentCloudWAF, AccessProviderTypeTencentCloud);
    assert HasAccessPrefix(DeploymentProviderTypeUCloudUCDN, AccessProviderTypeUCloud);
    assert HasAccessPrefix(DeploymentProviderTypeUCloudUS3, AccessProviderTypeUCloud);
    assert HasAccessPrefix(DeploymentProviderTypeUniCloudWebHost, AccessProviderTypeUniCloud);
  }

  lemma DeploymentBlock11Facts()
    ensures forall v | v in DeploymentBlock11 :: PrefixedByAccess(v, AccessProviderTypes)
    ensures forall x | x in DeploymentBlock11 :: x in DeploymentProviderTypesInAsciiOrder
  {
    assert HasAccessPrefix(DeploymentProviderTypeUpyunCDN, AccessProviderTypeUpyun);
    assert HasAccessPrefix(DeploymentProviderTypeUpyunFile, AccessProviderTypeUpyun);
    assert HasAccessPrefix(DeploymentProviderTypeVolcEngineALB, AccessProviderTypeVolcEngine);
    assert HasAccessPrefix(DeploymentProviderTypeVolcEngineCDN, AccessProviderTypeVolcEngine);
    assert HasAccessPrefix(DeploymentProviderTypeVolcEngineCertCenter, AccessProviderTypeVolcEngine);
    assert HasAccessPrefix(DeploymentProviderTypeVolcEngineCLB, AccessProviderTypeVolcEngine);
    assert HasAccessPrefix(DeploymentProviderTypeVolcEngineDCDN, AccessProviderTypeVolcEngine);
  }

  lemma DeploymentBlock12Facts()
    ensures forall v | v in DeploymentBlock12 :: PrefixedByAccess(v, AccessProviderTypes)
    ensures forall x | x in DeploymentBlock12 :: x in DeploymentProviderTypesInAsciiOrder
  {
    assert HasAccessPrefix(DeploymentProviderTypeVolcEngineImageX, AccessProviderTypeVolcEngine);
    assert HasAccessPrefix(DeploymentProviderTypeVolcEngineLive, AccessProviderTypeVolcEngine);
    assert HasAccessPrefix(DeploymentProviderTypeVolcEngineTOS, AccessProviderTypeVolcEngine);
    assert HasAccessPrefix(DeploymentProviderTypeWangsuCDN, AccessProviderTypeWangsu);
    assert HasAccessPrefix(DeploymentProviderTypeWangsuCDNPro, AccessProviderTypeWangsu);
    assert HasAccessPrefix(DeploymentProviderTypeWangsuCertificate, AccessProviderTypeWangsu);
    assert HasAccessPrefix(DeploymentProviderTypeWebhook, AccessProviderTypeWebhook);
  }

  /** Every deployment provider type is an access provider type, alone or followed by `-` and a suffix. */
  lemma DeploymentProviderTypesHaveAccessPrefix()
    ensures forall v | v in DeploymentProviderTypes :: PrefixedByAccess(v, AccessProviderTypes)
  {
    DeploymentBlock0Facts();
    DeploymentBlock1Facts();
    DeploymentBlock2Facts();
    DeploymentBlock3Facts();
    DeploymentBlock4Facts();
    DeploymentBlock5Facts();
    DeploymentBlock6Facts();
    DeploymentBlock7Facts();
    DeploymentBlock8Facts();
    DeploymentBlock9Facts();
    DeploymentBlock10Facts();
    DeploymentBlock11Facts();
    DeploymentBlock12Facts();
  }

  /** The part of every deployment provider type before its first `-` is an access provider type. */
  lemma DeploymentPrefixRule()
    ensures forall v | v in DeploymentProviderTypes :: AccessPart(v) in AccessProviderTypes
  {
    DeploymentProviderTypesHaveAccessPrefix();
    AccessProviderTypesHaveNoDash();
    forall v | v in DeploymentProviderTypes
      ensures AccessPart(v) in AccessProviderTypes
    {
      var a :| a in AccessProviderTypes && HasAccessPrefix(v, a);
      AccessPartOfPrefixed(v, a);
    }
  }

  /** A deployment provider type has no suffix exactly when it is itself an access provider type. */
  lemma DeploymentSuffixlessAreAccessProviderTypes()
    ensures forall v | v in DeploymentProviderTypes :: (v in AccessProviderTypes <==> '-' !in v)
  {
    DeploymentPrefixRule();
    AccessProviderTypesHaveNoDash();
    forall v | v in DeploymentProviderTypes && '-' !in v
      ensures v in AccessProviderTypes
    {
      AccessPartOfPrefixed(v, v);
    }
  }

  /** The ASCII-ordered list holds exactly the declared deployment provider types. */
  lemma DeploymentProviderTypesInAsciiOrderIsRearrangement()
    ensures |DeploymentProviderTypesInAsciiOrder| == |DeploymentProviderTypes|
    ensures forall x :: x in DeploymentProviderTypesInAsciiOrder <==> x in DeploymentProviderTypes
  {
    DeploymentSortedBlock0Ordered();
    DeploymentSortedBlock1Ordered();
    DeploymentSortedBlock2Ordered();
    DeploymentSortedBlock3Ordered();
    DeploymentSortedBlock4Ordered();
    DeploymentSortedBlock5Ordered();
    DeploymentSortedBlock6Ordered();
    DeploymentSortedBlock7Ordered();
    DeploymentSortedBlock8Ordered();
    DeploymentSortedBlock9Ordered();
    DeploymentSortedBlock10Ordered();
    DeploymentSortedBlock11Ordered();
    DeploymentSortedBlock12Ordered();
    DeploymentBlock0Facts();
    DeploymentBlock1Facts();
    DeploymentBlock2Facts();
    DeploymentBlock3Facts();
    DeploymentBlock4Facts();
    DeploymentBlock5Facts();
    DeploymentBlock6Facts();
    DeploymentBlock7Facts();
    DeploymentBlock8Facts();
    DeploymentBlock9Facts();
    DeploymentBlock10Facts();
    DeploymentBlock11Facts();
    DeploymentBlock12Facts();
  }

  /** No two deployment provider types share a value. */
  lemma DeploymentProviderTypesDistinct()
    ensures Distinct(DeploymentProviderTypes)
  {
    DeploymentProviderTypesInAsciiOrderOrdered();
    OrderedIsDistinct(DeploymentProviderTypesInAsciiOrder);
    DeploymentProviderTypesInAsciiOrderIsRearrangement();
    DistinctByCover(DeploymentProviderTypes, DeploymentProviderTypesInAsciiOrder);
  }

  /** The positions at which the declared deployment family breaks its order. */
  const DeploymentBreaks: set<int> := {19, 56}

  lemma DeploymentBlock0Breaks()
    ensures BreaksExactlyFrom(DeploymentBlock0, 0, DeploymentBreaks)
  {
    assert LessAt(DeploymentProviderType1PanelConsole, DeploymentProviderType1PanelSite, 7);
    assert LessAt(DeploymentProviderType1PanelSite, DeploymentProviderTypeAliyunALB, 0);
    assert LessAt(DeploymentProviderTypeAliyunALB, DeploymentProviderTypeAliyunAPIGW, 8);
    assert LessAt(DeploymentProviderTypeAliyunAPIGW, DeploymentProviderTypeAliyunCAS, 7);
    assert LessAt(DeploymentProviderTypeAliyunCAS, DeploymentProviderTypeAliyunCASDeploy, 10);
    assert LessAt(DeploymentProviderTypeAliyunCASDeploy, DeploymentProviderTypeAliyunCDN, 8);
    assert LessAt(DeploymentProviderTypeAliyunCDN, DeploymentProviderTypeAliyunCLB, 8);
  }

  lemma DeploymentBlock1Breaks()
    ensures BreaksExactlyFrom(DeploymentBlock1, 8, DeploymentBreaks)
  {
    assert LessAt(DeploymentProviderTypeAliyunDCDN, DeploymentProviderTypeAliyunDDoS, 8);
    assert LessAt(DeploymentProviderTypeAliyunDDoS, DeploymentProviderTypeAliyunESA, 7);
    assert LessAt(DeploymentProviderTypeAliyunESA, DeploymentProviderTypeAliyunFC, 7);
    assert LessAt(DeploymentProviderTypeAliyunFC, DeploymentProviderTypeAliyunGA, 7);
    assert LessAt(DeploymentProviderTypeAliyunGA, DeploymentProviderTypeAliyunLive, 7);
    assert LessAt(DeploymentProviderTypeAliyunLive, DeploymentProviderTypeAliyunNLB, 7);
    assert LessAt(DeploymentProviderTypeAliyunNLB, DeploymentProviderTypeAliyunOSS, 7);
  }

  lemma DeploymentBlock2Breaks()
    ensures BreaksExactlyFrom(DeploymentBlock2, 16, DeploymentBreaks)
  {
    assert LessAt(DeploymentProviderTypeAliyunVOD, DeploymentProviderTypeAliyunWAF, 7);
    assert LessAt(DeploymentProviderTypeAliyunWAF, DeploymentProviderTypeAPISIX, 1);
    NotLessAt(DeploymentProviderTypeAPISIX, DeploymentProviderTypeAWSACM, 5);
    assert LessAt(DeploymentProviderTypeAWSACM, DeploymentProviderTypeAWSCloudFront, 4);
    assert LessAt(DeploymentProviderTypeAWSCloudFront, DeploymentProviderTypeAWSIAM, 4);
    assert LessAt(DeploymentProviderTypeAWSIAM, DeploymentProviderTypeAzureKeyVault, 1);
    assert LessAt(DeploymentProviderTypeAzureKeyVault, DeploymentProviderTypeBaiduCloudAppBLB, 0);
  }

  lemma DeploymentBlock3Breaks()
    ensures BreaksExactlyFrom(DeploymentBlock3, 24, DeploymentBreaks)
  {
    assert LessAt(DeploymentProviderTypeBaiduCloudBLB, DeploymentProviderTypeBaiduCloudCDN, 11);
    assert LessAt(DeploymentProviderTypeBaiduCloudCDN, DeploymentProviderTypeBaiduCloudCert, 12);
    assert LessAt(DeploymentProviderTypeBaiduCloudCert, DeploymentProviderTypeBaishanCDN, 3);
    assert LessAt(DeploymentProviderTypeBaishanCDN, DeploymentProviderTypeBaotaPanelConsole, 2);
    assert LessAt(DeploymentProviderTypeBaotaPanelConsole, DeploymentProviderTypeBaotaPanelSite, 11);
    assert LessAt(DeploymentProviderTypeBaotaPanelSite, DeploymentProviderTypeBaotaWAFConsole, 5);
    assert LessAt(DeploymentProviderTypeBaotaWAFConsole, DeploymentProviderTypeBaotaWAFSite, 9);
  }

  lemma DeploymentBlock4Breaks()
    ensures BreaksExactlyFrom(DeploymentBlock4, 32, DeploymentBreaks)
  {
    assert LessAt(DeploymentProviderTypeBunnyCDN, DeploymentProviderTypeBytePlusCDN, 1);
    assert LessAt(DeploymentProviderTypeBytePlusCDN, DeploymentProviderTypeCacheFly, 0);
    assert LessAt(DeploymentProviderTypeCacheFly, DeploymentProviderTypeCdnfly, 1);
    assert LessAt(DeploymentProviderTypeCdnfly, DeploymentProviderTypeCTCCCloudAO, 1);
    assert LessAt(DeploymentProviderTypeCTCCCloudAO, DeploymentProviderTypeCTCCCloudCDN, 10);
    assert LessAt(DeploymentProviderTypeCTCCCloudCDN, DeploymentProviderTypeCTCCCloudCMS, 11);
    assert LessAt(DeploymentProviderTypeCTCCCloudCMS, DeploymentProviderTypeCTCCCloudELB, 10);
  }

  lemma DeploymentBlock5Breaks()
    ensures BreaksExactlyFrom(DeploymentBlock5, 40, DeploymentBreaks)
  {
    assert LessAt(DeploymentProviderTypeCTCCCloudICDN, DeploymentProviderTypeCTCCCloudLVDN, 10);
    assert LessAt(DeploymentProviderTypeCTCCCloudLVDN, DeploymentProviderTypeDogeCloudCDN, 0);
    assert LessAt(DeploymentProviderTypeDogeCloudCDN, DeploymentProviderTypeEdgioApplications, 0);
    assert LessAt(DeploymentProviderTypeEdgioApplications, DeploymentProviderTypeFlexCDN, 0);
    assert LessAt(DeploymentProviderTypeFlexCDN, DeploymentProviderTypeGcoreCDN, 0);
    assert LessAt(DeploymentProviderTypeGcoreCDN, DeploymentProviderTypeGoEdge, 1);
    assert LessAt(DeploymentProviderTypeGoEdge, DeploymentProviderTypeHuaweiCloudCDN, 0);
  }

  lemma DeploymentBlock6Breaks()
    ensures BreaksExactlyFrom(DeploymentBlock6, 48, DeploymentBreaks)
  {
    assert LessAt(DeploymentProviderTypeHuaweiCloudELB, DeploymentProviderTypeHuaweiCloudSCM, 12);
    assert LessAt(DeploymentProviderTypeHuaweiCloudSCM, DeploymentProviderTypeHuaweiCloudWAF, 12);
    assert LessAt(DeploymentProviderTypeHuaweiCloudWAF, DeploymentProviderTypeJDCloudALB, 0);
    assert LessAt(DeploymentProviderTypeJDCloudALB, DeploymentProviderTypeJDCloudCDN, 8);
    assert LessAt(DeploymentProviderTypeJDCloudCDN, DeploymentProviderTypeJDCloudLive, 8);
    assert LessAt(DeploymentProviderTypeJDCloudLive, DeploymentProviderTypeJDCloudVOD, 8);
    assert LessAt(DeploymentProviderTypeJDCloudVOD, DeploymentProviderTypeKong, 0);
  }

  lemma DeploymentBlock7Breaks()
    ensures BreaksExactlyFrom(DeploymentBlock7, 56, DeploymentBreaks)
  {
    assert LessAt(DeploymentProviderTypeKubernetesSecret, DeploymentProviderTypeLeCDN, 0);
    assert LessAt(DeploymentProviderTypeLeCDN, DeploymentProviderTypeLocal, 1);
    assert LessAt(DeploymentProviderTypeLocal, DeploymentProviderTypeNetlifySite, 0);
    assert LessAt(DeploymentProviderTypeNetlifySite, DeploymentProviderTypeProxmoxVE, 0);
    assert LessAt(DeploymentProviderTypeProxmoxVE, DeploymentProviderTypeQiniuCDN, 0);
    assert LessAt(DeploymentProviderTypeQiniuCDN, DeploymentProviderTypeQiniuKodo, 6);
    assert LessAt(DeploymentProviderTypeQiniuKodo, DeploymentProviderTypeQiniuPili, 6);
  }

  lemma DeploymentBlock8Breaks()
    ensures BreaksExactlyFrom(DeploymentBlock8, 64, DeploymentBreaks)
  {
    assert LessAt(DeploymentProviderTypeRainYunRCDN, DeploymentProviderTypeRatPanelConsole, 2);
    assert LessAt(DeploymentProviderTypeRatPanelConsole, DeploymentProviderTypeRatPanelSite, 9);
    assert LessAt(DeploymentProviderTypeRatPanelSite, DeploymentProviderTypeSafeLine, 0);
    assert LessAt(DeploymentProviderTypeSafeLine, DeploymentProviderTypeSSH, 1);
    assert LessAt(DeploymentProviderTypeSSH, DeploymentProviderTypeTencentCloudCDN, 0);
    assert LessAt(DeploymentProviderTypeTencentCloudCDN, DeploymentProviderTypeTencentCloudCLB, 14);
  }

  lemma DeploymentBlock9Breaks()
    ensures BreaksExactlyFrom(DeploymentBlock9, 71, DeploymentBreaks)
  {
    assert LessAt(DeploymentProviderTypeTencentCloudCOS, DeploymentProviderTypeTencentCloudCSS, 14);
    assert LessAt(DeploymentProviderTypeTencentCloudCSS, DeploymentProviderTypeTencentCloudECDN, 13);
    assert LessAt(DeploymentProviderTypeTencentCloudECDN, DeploymentProviderTypeTencentCloudEO, 14);
    assert LessAt(DeploymentProviderTypeTencentCloudEO, DeploymentProviderTypeTencentCloudGAAP, 13);
    assert LessAt(DeploymentProviderTypeTencentCloudGAAP, DeploymentProviderTypeTencentCloudSCF, 13);
    assert LessAt(DeploymentProviderTypeTencentCloudSCF, DeploymentProviderTypeTencentCloudSSL, 14);
  }

  lemma DeploymentBlock10Breaks()
    ensures BreaksExactlyFrom(DeploymentBlock10, 78, DeploymentBreaks)
  {
    assert LessAt(DeploymentProviderTypeTencentCloudSSLDeploy, DeploymentProviderTypeTencentCloudSSLUpdate, 16);
    assert LessAt(DeploymentProviderTypeTencentCloudSSLUpdate, DeploymentProviderTypeTencentCloudVOD, 13);
    assert LessAt(DeploymentProviderTypeTencentCloudVOD, DeploymentProviderTypeTencentCloudWAF, 13);
    assert LessAt(DeploymentProviderTypeTencentCloudWAF, DeploymentProviderTypeUCloudUCDN, 0);
    assert LessAt(DeploymentProviderTypeUCloudUCDN, DeploymentProviderTypeUCloudUS3, 8);
    assert LessAt(DeploymentProviderTypeUCloudUS3, DeploymentProviderTypeUniCloudWebHost, 1);
  }

  lemma DeploymentBlock11Breaks()
    ensures BreaksExactlyFrom(DeploymentBlock11, 85, DeploymentBreaks)
  {
    assert LessAt(DeploymentProviderTypeUpyunCDN, DeploymentProviderTypeUpyunFile, 6);
    assert LessAt(DeploymentProviderTypeUpyunFile, DeploymentProviderTypeVolcEngineALB, 0);
    assert LessAt(DeploymentProviderTypeVolcEngineALB, DeploymentProviderTypeVolcEngineCDN, 11);
    assert LessAt(DeploymentProviderTypeVolcEngineCDN, DeploymentProviderTypeVolcEngineCertCenter, 12);
    assert LessAt(DeploymentProviderTypeVolcEngineCertCenter, DeploymentProviderTypeVolcEngineCLB, 12);
    assert LessAt(DeploymentProviderTypeVolcEngineCLB, DeploymentProviderTypeVolcEngineDCDN, 11);
  }

  lemma DeploymentBlock12Breaks()
    ensures BreaksExactlyFrom(DeploymentBlock12, 92, DeploymentBreaks)
  {
    assert LessAt(DeploymentProviderTypeVolcEngineImageX, DeploymentProviderTypeVolcEngineLive, 11);
    assert LessAt(DeploymentProviderTypeVolcEngineLive, DeploymentProviderTypeVolcEngineTOS, 11);
    assert LessAt(DeploymentProviderTypeVolcEngineTOS, DeploymentProviderTypeWangsuCDN, 0);
    assert LessAt(DeploymentProviderTypeWangsuCDN, DeploymentProviderTypeWangsuCDNPro, 10);
    assert LessAt(DeploymentProviderTypeWangsuCDNPro, DeploymentProviderTypeWangsuCertificate, 8);
    assert LessAt(DeploymentProviderTypeWangsuCertificate, DeploymentProviderTypeWebhook, 1);
  }

  /** The declared deployment family up to block 2 breaks its order exactly at the positions listed. */
  lemma DeploymentPrefix2Breaks()
    ensures BreaksExactlyFrom(DeploymentBlock0 + DeploymentBlock1 + DeploymentBlock2, 0, DeploymentBreaks)
  {
    DeploymentBlock0Breaks();
    DeploymentBlock1Breaks();
    assert LessAt(DeploymentProviderTypeAliyunCLB, DeploymentProviderTypeAliyunDCDN, 7);
    BreaksAppend(DeploymentBlock0, DeploymentBlock1, 0, DeploymentBreaks);
    DeploymentBlock2Breaks();
    assert LessAt(DeploymentProviderTypeAliyunOSS, DeploymentProviderTypeAliyunVOD, 7);
    BreaksAppend(DeploymentBlock0 + DeploymentBlock1, DeploymentBlock2, 0, DeploymentBreaks);
  }

  /** The declared deployment family up to block 4 breaks its order exactly at the positions listed. */
  lemma DeploymentPrefix4Breaks()
    ensures BreaksExactlyFrom(DeploymentBlock0 + DeploymentBlock1 + DeploymentBlock2 + DeploymentBlock3 + DeploymentBlock4, 0, DeploymentBreaks)
  {
    DeploymentPrefix2Breaks();
    DeploymentBlock3Breaks();
    assert LessAt(DeploymentProviderTypeBaiduCloudAppBLB, DeploymentProviderTypeBaiduCloudBLB, 11);
    BreaksAppend(DeploymentBlock0 + DeploymentBlock1 + DeploymentBlock2, DeploymentBlock3, 0, DeploymentBreaks);
    DeploymentBlock4Breaks();
    assert LessAt(DeploymentProviderTypeBaotaWAFSite, DeploymentProviderTypeBunnyCDN, 1);
    BreaksAppend(DeploymentBlock0 + DeploymentBlock1 + DeploymentBlock2 + DeploymentBlock3, DeploymentBlock4, 0, DeploymentBreaks);
  }

  /** The declared deployment family up to block 6 breaks its order exactly at the positions listed. */
  lemma DeploymentPrefix6Breaks()
    ensures BreaksExactlyFrom(DeploymentBlock0 + DeploymentBlock1 + DeploymentBlock2 + DeploymentBlock3 + DeploymentBlock4 + DeploymentBlock5 + DeploymentBlock6, 0, DeploymentBreaks)
  {
    DeploymentPrefix4Breaks();
    DeploymentBlock5Breaks();
    assert LessAt(DeploymentProviderTypeCTCCCloudELB, DeploymentProviderTypeCTCCCloudICDN, 10);
    BreaksAppend(DeploymentBlock0 + DeploymentBlock1 + DeploymentBlock2 + DeploymentBlock3 + DeploymentBlock4, DeploymentBlock5, 0, DeploymentBreaks);
    DeploymentBlock6Breaks();
    assert LessAt(DeploymentProviderTypeHuaweiCloudCDN, DeploymentProviderTypeHuaweiCloudELB, 12);
    BreaksAppend(DeploymentBlock0 + DeploymentBlock1 + DeploymentBlock2 + DeploymentBlock3 + DeploymentBlock4 + DeploymentBlock5, DeploymentBlock6, 0, DeploymentBreaks);
  }

  /** The declared deployment family up to block 8 breaks its order exactly at the positions listed. */
  lemma DeploymentPrefix8Breaks()
    ensures BreaksExactlyFrom(DeploymentBlock0 + DeploymentBlock1 + DeploymentBlock2 + DeploymentBlock3 + DeploymentBlock4 + DeploymentBlock5 + DeploymentBlock6 + DeploymentBlock7 + DeploymentBlock8, 0, DeploymentBreaks)
  {
    DeploymentPrefix6Breaks();
    DeploymentBlock7Breaks();
    NotLessAt(DeploymentProviderTypeKong, DeploymentProviderTypeKubernetesSecret, 1);
    BreaksAppend(DeploymentBlock0 + DeploymentBlock1 + DeploymentBlock2 + DeploymentBlock3 + DeploymentBlock4 + DeploymentBlock5 + DeploymentBlock6, DeploymentBlock7, 0, DeploymentBreaks);
    DeploymentBlock8Breaks();
    assert LessAt(DeploymentProviderTypeQiniuPili, DeploymentProviderTypeRainYunRCDN, 0);
    BreaksAppend(DeploymentBlock0 + DeploymentBlock1 + DeploymentBlock2 + DeploymentBlock3 + DeploymentBlock4 + DeploymentBlock5 + DeploymentBlock6 + DeploymentBlock7, DeploymentBlock8, 0, DeploymentBreaks);
  }

  /** The declared deployment family up to block 10 breaks its order exactly at the positions listed. */
  lemma DeploymentPrefix10Breaks()
    ensures BreaksExactlyFrom(DeploymentBlock0 + DeploymentBlock1 + DeploymentBlock2 + DeploymentBlock3 + DeploymentBlock4 + DeploymentBlock5 + DeploymentBlock6 + DeploymentBlock7 + DeploymentBlock8 + DeploymentBlock9 + DeploymentBlock10, 0, DeploymentBreaks)
  {
    DeploymentPrefix8Breaks();
    DeploymentBlock9Breaks();
    assert LessAt(DeploymentProviderTypeTencentCloudCLB, DeploymentProviderTypeTencentCloudCOS, 14);
    BreaksAppend(DeploymentBlock0 + DeploymentBlock1 + DeploymentBlock2 + DeploymentBlock3 + DeploymentBlock4 + DeploymentBlock5 + DeploymentBlock6 + DeploymentBlock7 + DeploymentBlock8, DeploymentBlock9, 0, DeploymentBreaks);
    DeploymentBlock10Breaks();
    assert LessAt(DeploymentProviderTypeTencentCloudSSL, DeploymentProviderTypeTencentCloudSSLDeploy, 16);
    BreaksAppend(DeploymentBlock0 + DeploymentBlock1 + DeploymentBlock2 + DeploymentBlock3 + DeploymentBlock4 + DeploymentBlock5 + DeploymentBlock6 + DeploymentBlock7 + DeploymentBlock8 + DeploymentBlock9, DeploymentBlock10, 0, DeploymentBreaks);
  }

  lemma DeploymentProviderTypesBreaks()
    ensures BreaksExactlyFrom(DeploymentProviderTypes, 0, DeploymentBreaks)
  {
    DeploymentPrefix10Breaks();
    DeploymentBlock11Breaks();
    assert LessAt(DeploymentProviderTypeUniCloudWebHost, DeploymentProviderTypeUpyunCDN, 1);
    BreaksAppend(DeploymentBlock0 + DeploymentBlock1 + DeploymentBlock2 + DeploymentBlock3 + DeploymentBlock4 + DeploymentBlock5 + DeploymentBlock6 + DeploymentBlock7 + DeploymentBlock8 + DeploymentBlock9 + DeploymentBlock10, DeploymentBlock11, 0, DeploymentBreaks);
    DeploymentBlock12Breaks();
    assert LessAt(DeploymentProviderTypeVolcEngineDCDN, DeploymentProviderTypeVolcEngineImageX, 11);
    BreaksAppend(DeploymentBlock0 + DeploymentBlock1 + DeploymentBlock2 + DeploymentBlock3 + DeploymentBlock4 + DeploymentBlock5 + DeploymentBlock6 + DeploymentBlock7 + DeploymentBlock8 + DeploymentBlock9 + DeploymentBlock10 + DeploymentBlock11, DeploymentBlock12, 0, DeploymentBreaks);
  }

  /**
   * The declared deployment provider types are not in ASCII order: these
   * adjacent pairs are reversed, and every other adjacent pair is in order.
   */
  lemma DeploymentProviderTypesNotOrdered()
    ensures !Ordered(DeploymentProviderTypes)
    ensures forall i | 0 < i < |DeploymentProviderTypes| :: BreaksOrderAt(DeploymentProviderTypes, i) <==> i in {19, 56}
    ensures BreaksOrderAt(DeploymentProviderTypes, 19)
    ensures DeploymentProviderTypes[18] == DeploymentProviderTypeAPISIX && DeploymentProviderTypes[19] == DeploymentProviderTypeAWSACM
    ensures BreaksOrderAt(DeploymentProviderTypes, 56)
    ensures DeploymentProviderTypes[55] == DeploymentProviderTypeKong && DeploymentProviderTypes[56] == DeploymentProviderTypeKubernetesSecret
  {
    NotLessAt(DeploymentProviderTypeAPISIX, DeploymentProviderTypeAWSACM, 5);
    NotLessAt(DeploymentProviderTypeKong, DeploymentProviderTypeKubernetesSecret, 1);
    BreakIsNotOrdered(DeploymentProviderTypes, 19);
    DeploymentProviderTypesBreaks();
  }

  /**
   * The deployment type named for APISIX is written with the AWS access type
   * in front: the part before its `-` is "aws", not "apisix", and this value
   * is what puts it out of order before the AWS ACM type.
   */
  lemma ApisixDeploymentTypeIsUnderAws()
    ensures AccessPart(DeploymentProviderTypeAPISIX) == AccessProviderTypeAWS
    ensures AccessPart(DeploymentProviderTypeAPISIX) != AccessProviderTypeAPISIX
    ensures DeploymentProviderTypes[18] == DeploymentProviderTypeAPISIX
    ensures BreaksOrderAt(DeploymentProviderTypes, 19)
  {
    AccessPartOfPrefixed(DeploymentProviderTypeAPISIX, AccessProviderTypeAWS);
    DeploymentProviderTypesNotOrdered();
  }

  /** The value the APISIX deployment type evidently stands for: the APISIX access type itself. */
  const DeploymentProviderTypeAPISIXIntended: DeploymentProviderType := AccessProviderTypeAPISIX

  /**
   * With the intended value the APISIX deployment type belongs to the APISIX
   * access type and sits in ASCII order where it is declared, after the
   * Aliyun WAF type and before the AWS ACM type.
   */
  lemma ApisixIntendedRestoresOrder()
    ensures AccessPart(DeploymentProviderTypeAPISIXIntended) == AccessProviderTypeAPISIX
    ensures Less(DeploymentProviderTypes[17], DeploymentProviderTypeAPISIXIntended)
    ensures Less(DeploymentProviderTypeAPISIXIntended, DeploymentProviderTypes[19])
  {
    AccessPartOfPrefixed(DeploymentProviderTypeAPISIXIntended, AccessProviderTypeAPISIX);
    ApisixNeighbours();
    assert LessAt(DeploymentProviderTypeAliyunWAF, DeploymentProviderTypeAPISIXIntended, 1);
    assert LessAt(DeploymentProviderTypeAPISIXIntended, DeploymentProviderTypeAWSACM, 1);
  }

  /** The constants declared on either side of the APISIX deployment type. */
  lemma ApisixNeighbours()
    ensures DeploymentProviderTypes[17] == DeploymentProviderTypeAliyunWAF
    ensures DeploymentProviderTypes[19] == DeploymentProviderTypeAWSACM
  {
  }

  // ------------------------------------------------------------------
  // Notification provider types (internal/domain/provider.go:296-304)

  const NotificationProviderTypeDingTalkBot: NotificationProviderType := AccessProviderTypeDingTalkBot
  const NotificationProviderTypeDiscordBot: NotificationProviderType := AccessProviderTypeDiscordBot
  const NotificationProviderTypeEmail: NotificationProviderType := AccessProviderTypeEmail
  const NotificationProviderTypeLarkBot: NotificationProviderType := AccessProviderTypeLarkBot
  const NotificationProviderTypeMattermost: NotificationProviderType := AccessProviderTypeMattermost
  const NotificationProviderTypeSlackBot: NotificationProviderType := AccessProviderTypeSlackBot
  const NotificationProviderTypeTelegramBot: NotificationProviderType := AccessProviderTypeTelegramBot
  const NotificationProviderTypeWebhook: NotificationProviderType := AccessProviderTypeWebhook
  const NotificationProviderTypeWeComBot: NotificationProviderType := AccessProviderTypeWeComBot

  const NotificationBlock0: seq<NotificationProviderType> := [NotificationProviderTypeDingTalkBot,
    NotificationProviderTypeDiscordBot, NotificationProviderTypeEmail,
    NotificationProviderTypeLarkBot, NotificationProviderTypeMattermost]
  const NotificationBlock1: seq<NotificationProviderType> := [NotificationProviderTypeSlackBot,
    NotificationProviderTypeTelegramBot, NotificationProviderTypeWebhook,
    NotificationProviderTypeWeComBot]

  /** All notification provider types, in declaration order. */
  const NotificationProviderTypes: seq<NotificationProviderType> :=
    NotificationBlock0 + NotificationBlock1

  lemma NotificationBlock0Ordered()
    ensures Ordered(NotificationBlock0)
  {
    assert LessAt(NotificationProviderTypeDingTalkBot, NotificationProviderTypeDiscordBot, 2);
    assert LessAt(NotificationProviderTypeDiscordBot, NotificationProviderTypeEmail, 0);
    assert LessAt(NotificationProviderTypeEmail, NotificationProviderTypeLarkBot, 0);
    assert LessAt(NotificationProviderTypeLarkBot, NotificationProviderTypeMattermost, 0);
  }

  lemma NotificationBlock1Ordered()
    ensures Ordered(NotificationBlock1)
  {
    assert LessAt(NotificationProviderTypeSlackBot, NotificationProviderTypeTelegramBot, 0);
    assert LessAt(NotificationProviderTypeTelegramBot, NotificationProviderTypeWebhook, 0);
    assert LessAt(NotificationProviderTypeWebhook, NotificationProviderTypeWeComBot, 2);
  }

  lemma NotificationProviderTypesOrdered()
    ensures Ordered(NotificationProviderTypes)
  {
    NotificationBlock0Ordered();
    NotificationBlock1Ordered();
    assert LessAt(NotificationProviderTypeMattermost, NotificationProviderTypeSlackBot, 0);
    OrderedAppend(NotificationBlock0, NotificationBlock1);
  }

  /** Every notification provider type is exactly an access provider type. */
  lemma NotificationProviderTypesAreAccessProviderTypes()
    ensures forall v | v in NotificationProviderTypes :: v in AccessProviderTypes
  {
  }

  /** No two notification provider types share a value. */
  lemma NotificationProviderTypesDistinct()
    ensures Distinct(NotificationProviderTypes)
  {
    NotificationProviderTypesOrdered();
    OrderedIsDistinct(NotificationProviderTypes);
  }

}
