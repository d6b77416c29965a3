/**
 * What one entry of the strategy asks of its IngressController, field by field and in the words of the
 * two objects. The lemmas tie the validators and the generated object to it.
 */
module EntryFields {
  import opened Basics
  import ClusterVersion
  import opened IngressControllers

  // --- Names and domains ---

  /** `default`, or the text before the first dot. */
  ghost predicate Names(e: ApplicationIngress, name: string) {
    if e.isDefault then '.' in e.dnsName && name == "default"
    else '.' !in name && exists rest :: e.dnsName == name + "." + rest
  }

  lemma NamesIff(e: ApplicationIngress, name: string)
    ensures NameOf(e) == Some(name) <==> Names(e, name)
  {
    var dns := e.dnsName;
    match IndexOf(dns, '.') {
      case None =>
        forall rest: string ensures dns != name + "." + rest {
          assert (name + "." + rest)[|name|] == '.';
        }
      case Some(k) =>
        assert dns == dns[..k] + "." + dns[k + 1..];
        forall rest | '.' !in name && dns == name + "." + rest ensures name == dns[..k] {
          FirstDot(dns, name, rest, k);
        }
    }
  }

  lemma FirstDot(dns: string, name: string, rest: string, k: nat)
    requires k < |dns| && dns[k] == '.' && '.' !in dns[..k]
    requires '.' !in name && dns == name + "." + rest
    ensures name == dns[..k]
  {
    assert dns[|name|] == '.';
    forall i | 0 <= i < k ensures dns[i] != '.' { assert dns[..k][i] in dns[..k]; }
    forall i | 0 <= i < |name| ensures dns[i] != '.' { assert dns[i] == name[i] && name[i] in name; }
    assert |name| == k;
    assert dns[..|name|] == name;
  }

  lemma SuffixText(s: string, suffix: string)
    ensures HasSuffix(s, suffix) <==> exists p :: s == p + suffix
  {
    if HasSuffix(s, suffix) {
      assert s == s[..|s| - |suffix|] + suffix;
    }
  }

  /** The host of the API server URL without its first four characters, which are `api.`. */
  lemma BaseDomainText(c: Cluster, domain: string)
    ensures c.apiHost == Some("api." + domain) ==> c.BaseDomain() == domain
    ensures c.apiHost.Some? && !c.ShortHost() ==>
              |c.apiHost.value| >= 4 && c.apiHost.value == c.apiHost.value[..4] + c.BaseDomain()
    ensures c.apiHost.None? || c.ShortHost() ==> c.BaseDomain() == ""
    ensures c.ShortHost() <==> c.apiHost.Some? && |c.apiHost.value| < |"api."|
  {
    assert ("api." + domain)[4..] == domain;
  }

  // --- The values an entry asks for ---

  function WantedScope(e: ApplicationIngress): string {
    if e.listening == "internal" then "Internal" else "External"
  }

  /** On AWS only. */
  function WantedType(e: ApplicationIngress): string {
    if e.lbType == "" then "Classic" else e.lbType
  }

  function WantedParameters(c: Cluster, e: ApplicationIngress): Option<ProviderParameters> {
    if c.platform != Some("AWS") then None
    else
      var timeout := if WantedType(e) == "Classic" && c.gates.v411 then Some(1800) else None;
      Some(ProviderParameters("AWS", Some(AwsParameters(WantedType(e), timeout))))
  }

  const INFRA_LABELS := map["node-role.kubernetes.io/infra" := ""]

  function WantedSelector(e: ApplicationIngress): Option<LabelSelector> {
    Some(LabelSelector(e.routeSelector.matchLabels, []))
  }

  function WantedPlacement(): Option<NodePlacement> {
    var toleration := Toleration("node-role.kubernetes.io/infra", "NoSchedule", "Exists");
    Some(NodePlacement(Some(LabelSelector(INFRA_LABELS, [])), [toleration]))
  }

  function WantedEndpoint(c: Cluster, e: ApplicationIngress): Option<Endpoint> {
    Some(Endpoint("LoadBalancerService", Some(LoadBalancer(WantedScope(e), WantedParameters(c, e)))))
  }

  /** The object an entry gets: owned, no finalizers, no replicas. */
  function Created(c: Cluster, e: ApplicationIngress): IngressController {
    IngressController(
      map["Owner" := "cloud-ingress-operator"], [], false,
      Spec(Some(e.certificate), WantedPlacement(), e.dnsName, WantedEndpoint(c, e), WantedSelector(e), None),
      Status(Some(map[]), "", None))
  }

  lemma CreatedFields(c: Cluster, e: ApplicationIngress)
    ensures NewController(Desired(c, e)) == Created(c, e)
  {
  }

  // --- What differs ---

  predicate HasScope(endpoint: Option<Endpoint>, scope: string) {
    endpoint.Some? && endpoint.value.loadBalancer.Some? && endpoint.value.loadBalancer.value.scope == scope
  }

  /** The domain, and before 4.10 the scope, cannot be changed in place. */
  predicate ImmutableDiffers(c: Cluster, e: ApplicationIngress, domain: string, endpoint: Option<Endpoint>) {
    domain != e.dnsName || (!c.gates.v410 && !HasScope(endpoint, WantedScope(e)))
  }

  /** The status speaks for the load balancer type only if the spec has no endpoint. */
  function TypeEndpoint(ic: IngressController): Option<Endpoint> {
    if ic.spec.endpoint.Some? then ic.spec.endpoint else ic.status.endpoint
  }

  /** The endpoint has no load balancer, or parameters of another provider. */
  predicate NoType(ic: IngressController) {
    TypeEndpoint(ic).Some? &&
    match TypeEndpoint(ic).value.loadBalancer
    case None => true
    case Some(lb) => lb.parameters.Some? && lb.parameters.value.aws.None?
  }

  /** With parameters the types differ; without them, which means Classic, the entry asks for an NLB. */
  predicate TypeDiffers(e: ApplicationIngress, ic: IngressController) {
    match TypeEndpoint(ic)
    case None => true
    case Some(endpoint) =>
      match endpoint.loadBalancer
      case None => false
      case Some(lb) =>
        match lb.parameters
        case None => WantedType(e) == "NLB"
        case Some(p) => p.aws.Some? && p.aws.value.lbType != WantedType(e)
  }

  predicate SelectorDiffers(e: ApplicationIngress, s: Spec) {
    s.routeSelector.None? || s.routeSelector.value.matchLabels != e.routeSelector.matchLabels
  }

  predicate CertificateDiffers(e: ApplicationIngress, s: Spec) {
    s.certificate != Some(e.certificate)
  }

  /** A placement without a node selector panics before it can differ. */
  predicate BarePlacement(s: Spec) {
    s.placement.Some? && s.placement.value.nodeSelector.None?
  }

  predicate PlacementDiffers(s: Spec) {
    s.placement.None? || s.placement.value.nodeSelector.None?
    || s.placement.value.nodeSelector.value.matchLabels != INFRA_LABELS
  }

  /** The scope can be changed in place from 4.10, the parameters from 4.11. */
  predicate EndpointDiffers(c: Cluster, e: ApplicationIngress, s: Spec) {
    || (c.gates.v410 && !HasScope(s.endpoint, WantedScope(e)))
    || (c.gates.v411 && HasScope(s.endpoint, WantedScope(e))
        && s.endpoint.value.loadBalancer.value.parameters != WantedParameters(c, e))
  }

  lemma TypeMeans(c: Cluster, e: ApplicationIngress, ic: IngressController)
    requires c.platform == Some("AWS")
    ensures c.IsAws()
    ensures ValidateAwsType(ic, TypeOn(c, e)) ==
            if NoType(ic) then Crash else if TypeDiffers(e, ic) then Fail else Pass
  {
  }

  lemma StaticMeans(c: Cluster, e: ApplicationIngress, ic: IngressController)
    ensures ValidateStaticSpec(c.gates, ic, Desired(c, e))
            <==> !ImmutableDiffers(c, e, ic.spec.domain, ic.spec.endpoint)
    ensures ValidateStaticStatus(c.gates, ic, Desired(c, e))
            <==> !ImmutableDiffers(c, e, ic.status.domain, ic.status.endpoint)
  {
  }

  lemma PatchMeans(c: Cluster, e: ApplicationIngress, s: Spec)
    ensures ValidatePatchable(c.gates, s, Desired(c, e)) ==
            if SelectorDiffers(e, s) then Differs(Selector)
            else if CertificateDiffers(e, s) then Differs(Certificate)
            else if BarePlacement(s) then PatchCrash
            else if PlacementDiffers(s) then Differs(Placement)
            else if EndpointDiffers(c, e, s) then Differs(EndPoint)
            else AllMatch
  {
  }

  // --- What a pass has to do for a live object ---

  /** The object has to be deleted: its type is wrong, or an immutable field, which the status excuses for `default`. */
  predicate ReplaceDue(c: Cluster, e: ApplicationIngress, ic: IngressController) {
    || (c.platform == Some("AWS") && !NoType(ic) && TypeDiffers(e, ic))
    || (&& (c.platform == Some("AWS") ==> !NoType(ic))
        && ImmutableDiffers(c, e, ic.spec.domain, ic.spec.endpoint)
        && (NameOf(e) != Some("default") || ImmutableDiffers(c, e, ic.status.domain, ic.status.endpoint)))
  }

  /** A selector of `default` that is right in the status ends the checks. */
  predicate Excused(e: ApplicationIngress, ic: IngressController) {
    && NameOf(e) == Some("default") && SelectorDiffers(e, ic.spec)
    && ic.status.selector == Some(e.routeSelector.matchLabels)
  }

  /** `b` is `a` with the first differing field set to what the entry asks for, and nothing else changed. */
  predicate OneFieldSet(c: Cluster, e: ApplicationIngress, a: IngressController, b: IngressController) {
    if SelectorDiffers(e, a.spec) then
      !Excused(e, a) && b == a.(spec := a.spec.(routeSelector := WantedSelector(e)))
    else if CertificateDiffers(e, a.spec) then
      b == a.(spec := a.spec.(certificate := Some(e.certificate)))
    else if PlacementDiffers(a.spec) then
      !BarePlacement(a.spec) && b == a.(spec := a.spec.(placement := WantedPlacement()))
    else EndpointDiffers(c, e, a.spec) && b == a.(spec := a.spec.(endpoint := WantedEndpoint(c, e)))
  }

  /** The checks before it pass and the placement has no node selector to compare. */
  predicate CrashesOnPlacement(e: ApplicationIngress, ic: IngressController) {
    !SelectorDiffers(e, ic.spec) && !CertificateDiffers(e, ic.spec) && BarePlacement(ic.spec)
  }

  /** Every patchable field is right, or the selector is excused. */
  predicate NothingToPatch(c: Cluster, e: ApplicationIngress, ic: IngressController) {
    || Excused(e, ic)
    || (&& !SelectorDiffers(e, ic.spec) && !CertificateDiffers(e, ic.spec) && !PlacementDiffers(ic.spec)
        && !EndpointDiffers(c, e, ic.spec))
  }

  /** Nothing to do: live, immutable fields right or excused, and no field to patch. */
  predicate AsWanted(c: Cluster, e: ApplicationIngress, ic: IngressController) {
    && !ic.deleting && (c.platform == Some("AWS") ==> !NoType(ic)) && !ReplaceDue(c, e, ic)
    && NothingToPatch(c, e, ic)
  }
}
