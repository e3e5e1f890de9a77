/**
 * The names the shoot DNS system test derives: the technical id of the shoot (the name of
 * its cluster resource in the seed), and the namespace, echo server name and DNS name of
 * the echo server the test deploys, in its load-balancer and its ingress variant.
 */
module ShootNames {
  import opened Wrappers
  import ReadinessProbe

  /** The test's command-line configuration. */
  datatype TestConfig = TestConfig(
    shootKubeconfig: string,
    seedKubeconfig: string,
    shootName: string,
    projectNamespace: string)

  /** The prefix of the namespaces of Gardener projects. */
  const GardenPrefix: string := "garden-"

  /** Go's `strings.HasPrefix`. */
  predicate HasPrefix(s: string, prefix: string)
    ensures HasPrefix(s, prefix) <==> prefix <= s
  {
    |prefix| <= |s| && s[..|prefix|] == prefix
  }

  /** The project part of the technical id: the namespace without one leading "garden-". */
  function ProjectPart(projectNamespace: string): (middle: string)
    ensures HasPrefix(projectNamespace, GardenPrefix) ==> projectNamespace == GardenPrefix + middle
    ensures !HasPrefix(projectNamespace, GardenPrefix) ==> middle == projectNamespace
  {
    if HasPrefix(projectNamespace, GardenPrefix) then projectNamespace[7..] else projectNamespace
  }

  /** `TechnicalShootId`: "shoot--<project>--<shoot name>". */
  function TechnicalShootId(cfg: TestConfig): (id: string)
    ensures HasPrefix(id, "shoot--")
    ensures |id| == 9 + |ProjectPart(cfg.projectNamespace)| + |cfg.shootName|
  {
    "shoot--" + ProjectPart(cfg.projectNamespace) + "--" + cfg.shootName
  }

  /**
   * The project part of a technical id, given the shoot name it ends with; None when `id`
   * does not have the form "shoot--<project>--<shootName>".
   */
  function ProjectPartOf(id: string, shootName: string): (r: Option<string>)
    ensures r.Some? ==> id == "shoot--" + r.value + "--" + shootName
  {
    if HasPrefix(id, "shoot--") && 9 + |shootName| <= |id| && id[|id| - |shootName| - 2..] == "--" + shootName
    then
      var middle := id[7..|id| - |shootName| - 2];
      assert id == id[..7] + middle + id[|id| - |shootName| - 2..];
      Some(middle)
    else None
  }

  /** The technical id determines the project part again, given the shoot name. */
  lemma TechnicalShootIdRoundTrip(cfg: TestConfig)
    ensures ProjectPartOf(TechnicalShootId(cfg), cfg.shootName) == Some(ProjectPart(cfg.projectNamespace))
  {
    var id := TechnicalShootId(cfg);
    var middle := ProjectPart(cfg.projectNamespace);
    assert id[|id| - |cfg.shootName| - 2..] == "--" + cfg.shootName;
    assert id[7..|id| - |cfg.shootName| - 2] == middle;
  }

  /** Exactly one "garden-" is stripped, even when the rest starts with "garden-" again. */
  lemma StripsOneGardenPrefix(rest: string)
    ensures ProjectPart(GardenPrefix + rest) == rest
  {
    assert (GardenPrefix + rest)[..|GardenPrefix|] == GardenPrefix;
  }

  /**
   * The namespaces "garden-<p>" and "<p>" (for a `p` not starting with "garden-") give
   * the same technical id.
   */
  lemma GardenAndBareNamespaceAgree(cfg: TestConfig, p: string)
    requires !HasPrefix(p, GardenPrefix)
    ensures TechnicalShootId(cfg.(projectNamespace := GardenPrefix + p)) ==
            TechnicalShootId(cfg.(projectNamespace := p))
  {
    StripsOneGardenPrefix(p);
  }

  /** The name suffix of the echo server variant. */
  function EchoSuffix(svcLB: bool): (suffix: string)
    ensures IsDnsLabel(suffix) && '.' !in suffix
  {
    if svcLB then "service-lb" else "ingress"
  }

  /** The namespace the echo server is deployed in. */
  function EchoNamespace(svcLB: bool): (ns: string)
    ensures ns == if svcLB then "shootdns-test-echoserver-service-lb" else "shootdns-test-echoserver-ingress"
  {
    "shootdns-test-echoserver-" + EchoSuffix(svcLB)
  }

  /** The name of the echo server. */
  function EchoName(svcLB: bool): (name: string)
    ensures name == if svcLB then "echo-service-lb" else "echo-ingress"
    ensures '.' !in name
  {
    "echo-" + EchoSuffix(svcLB)
  }

  /** The values the echo server template is rendered with. */
  datatype EchoValues = EchoValues(
    echoName: string,
    namespace: string,
    shootDnsName: string,
    serviceTypeLoadBalancer: bool)

  /**
   * The template values: the namespace and the echo server name carry the same variant
   * suffix, the load-balancer flag matches the name, and the name is the first label of
   * the probed DNS name, directly above the shoot's domain.
   */
  function TemplateValues(svcLB: bool, shootDnsDomain: string): (v: EchoValues)
    ensures |v.namespace| > 25 && v.namespace[..25] == "shootdns-test-echoserver-"
    ensures |v.echoName| > 5 && v.echoName[..5] == "echo-"
    ensures v.namespace[25..] == v.echoName[5..]
    ensures v.serviceTypeLoadBalancer == svcLB
    ensures v.serviceTypeLoadBalancer <==> v.echoName == "echo-service-lb"
    ensures '.' !in v.echoName && DomainName(v)[|v.echoName| + 1..] == shootDnsDomain
  {
    EchoValues(EchoName(svcLB), EchoNamespace(svcLB), shootDnsDomain, svcLB)
  }

  /** The DNS name the echo server is probed at: "<EchoName>.<ShootDnsName>". */
  function DomainName(values: EchoValues): (name: string)
    ensures |name| == |values.echoName| + 1 + |values.shootDnsName|
    ensures name[..|values.echoName|] == values.echoName && name[|values.echoName|] == '.'
    ensures name[|values.echoName| + 1..] == values.shootDnsName
  {
    values.echoName + "." + values.shootDnsName
  }

  /** The time `createEchoheaders` allows the probe. */
  const ProbeTimeout: int := 120 * ReadinessProbe.Second

  /** Splits a DNS name at its first dot: the first label and the rest. */
  function SplitFirstLabel(name: string): (r: Option<(string, string)>)
    ensures r.None? <==> '.' !in name
    ensures r.Some? ==> '.' !in r.value.0 && name == r.value.0 + "." + r.value.1
  {
    if |name| == 0 then None
    else if name[0] == '.' then Some(("", name[1..]))
    else match SplitFirstLabel(name[1..])
      case None => None
      case Some(split) => Some(([name[0]] + split.0, split.1))
  }

  /** A first label without dots is recovered from "<first>.<rest>". */
  lemma {:induction false} SplitFirstLabelOfJoin(first: string, rest: string)
    requires '.' !in first
    ensures SplitFirstLabel(first + "." + rest) == Some((first, rest))
  {
    if |first| > 0 {
      SplitFirstLabelOfJoin(first[1..], rest);
      assert (first + "." + rest)[1..] == first[1..] + "." + rest;
      assert [first[0]] + first[1..] == first;
    } else {
      assert first + "." + rest == "." + rest;
    }
  }

  /**
   * The probed name is the echo server's name as a single label directly under the
   * shoot's DNS domain, and both parts are recovered from it.
   */
  lemma DomainNameRoundTrip(svcLB: bool, shootDnsDomain: string)
    ensures SplitFirstLabel(DomainName(TemplateValues(svcLB, shootDnsDomain))) ==
            Some((EchoName(svcLB), shootDnsDomain))
  {
    SplitFirstLabelOfJoin(EchoName(svcLB), shootDnsDomain);
  }

  /**
   * The load-balancer and the ingress variant never share a namespace, an echo server
   * name or a probed DNS name, whatever the shoot domains.
   */
  lemma VariantsAreDisjoint(d1: string, d2: string)
    ensures EchoNamespace(true) != EchoNamespace(false)
    ensures EchoName(true) != EchoName(false)
    ensures DomainName(TemplateValues(true, d1)) != DomainName(TemplateValues(false, d2))
  {
    assert EchoNamespace(true)[25] != EchoNamespace(false)[25];
    assert DomainName(TemplateValues(true, d1))[5] == 's';
    assert DomainName(TemplateValues(false, d2))[5] == 'i';
  }

  /** A character of an RFC 1123 label: a lower-case letter, a digit or '-'. */
  predicate IsLabelChar(c: char) {
    'a' <= c <= 'z' || '0' <= c <= '9' || c == '-'
  }

  /** An RFC 1123 label, as Kubernetes requires of namespace names. */
  predicate IsDnsLabel(s: string) {
    && 1 <= |s| <= 63
    && (forall k :: 0 <= k < |s| ==> IsLabelChar(s[k]))
    && s[0] != '-' && s[|s| - 1] != '-'
  }

  /** The namespaces and echo server names are valid labels in both variants. */
  lemma EchoNamesAreDnsLabels(svcLB: bool)
    ensures IsDnsLabel(EchoNamespace(svcLB))
    ensures IsDnsLabel(EchoName(svcLB))
  {
  }

  /**
   * Within the 120 seconds `createEchoheaders` allows, the probe makes at least one and at
   * most 120 attempts.
   */
  lemma EchoProbeAttempts(svcLB: bool, shootDnsDomain: string, env: ReadinessProbe.Env)
    requires env.lag < ProbeTimeout
    ensures var o := ReadinessProbe.Run(DomainName(TemplateValues(svcLB, shootDnsDomain)), ProbeTimeout, env);
      1 <= o.attempts <= 120
  {
    ReadinessProbe.AttemptsBounds(DomainName(TemplateValues(svcLB, shootDnsDomain)), ProbeTimeout, env);
  }

  /** The URL the echo probe targets is "http://echo-<suffix>.<domain>". */
  lemma EchoUrl(svcLB: bool, shootDnsDomain: string)
    ensures ReadinessProbe.Url(DomainName(TemplateValues(svcLB, shootDnsDomain))) ==
            "http://echo-" + EchoSuffix(svcLB) + "." + shootDnsDomain
  {
    var host := DomainName(TemplateValues(svcLB, shootDnsDomain));
    assert host == EchoName(svcLB) + "." + shootDnsDomain;
    assert ReadinessProbe.Url(host) == "http://" + host;
    JoinAfterScheme("http://", "echo-", EchoSuffix(svcLB), shootDnsDomain);
  }

  /** Regrouping a URL built from a scheme, a name prefix, a suffix and a domain. */
  lemma JoinAfterScheme(scheme: string, prefix: string, suffix: string, domain: string)
    ensures scheme + (prefix + suffix + "." + domain) == scheme + prefix + suffix + "." + domain
  {
  }

  /** Every GET of the echo probe is against "http://echo-<suffix>.<domain>". */
  lemma EchoProbeUrl(svcLB: bool, shootDnsDomain: string, env: ReadinessProbe.Env, n: nat, i: nat, url: string)
    ensures var host := DomainName(TemplateValues(svcLB, shootDnsDomain));
      ReadinessProbe.Get(i, url) in ReadinessProbe.Trace(host, env, n) ==>
        url == "http://echo-" + EchoSuffix(svcLB) + "." + shootDnsDomain
  {
    EchoUrl(svcLB, shootDnsDomain);
    ReadinessProbe.GetOnlyAfterResolvedLookup(DomainName(TemplateValues(svcLB, shootDnsDomain)), env, n, i, url);
  }
}
