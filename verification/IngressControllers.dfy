/**
 * IngressController objects, the desired object built from one ApplicationIngress, and the
 * validators that compare the two.
 */
module IngressControllers {
  import opened Basics
  import ClusterVersion

  const CLOUD_FINALIZER := "cloudingress.managed.openshift.io/finalizer-cloud-ingress-controller"
  const CLUSTER_FINALIZER := "ingresscontroller.operator.openshift.io/finalizer-ingresscontroller"
  const OWNER := "Owner"
  const CLOUD_OPERATOR := "cloud-ingress-operator"
  const CLUSTER_OPERATOR := "cluster-ingress-operator"
  const DELETE_LB := "ingress.operator.openshift.io/auto-delete-load-balancer"
  const INFRA_NODE := "node-role.kubernetes.io/infra"
  const ELB_IDLE_TIMEOUT := 1800
  const DEFAULT := "default"

  datatype LabelSelector = LabelSelector(matchLabels: map<string, string>, expressions: seq<string>)
  datatype Toleration = Toleration(key: string, effect: string, operator: string)
  datatype NodePlacement = NodePlacement(nodeSelector: Option<LabelSelector>, tolerations: seq<Toleration>)
  datatype AwsParameters = AwsParameters(lbType: string, idleTimeout: Option<int>)
  datatype ProviderParameters = ProviderParameters(provider: string, aws: Option<AwsParameters>)
  datatype LoadBalancer = LoadBalancer(scope: string, parameters: Option<ProviderParameters>)
  datatype Endpoint = Endpoint(strategy: string, loadBalancer: Option<LoadBalancer>)

  datatype Spec = Spec(
    certificate: Option<string>,
    placement: Option<NodePlacement>,
    domain: string,
    endpoint: Option<Endpoint>,
    routeSelector: Option<LabelSelector>,
    replicas: Option<int>)

  /** `selector` is None when the status text does not parse as a label selector. */
  datatype Status = Status(selector: Option<map<string, string>>, domain: string, endpoint: Option<Endpoint>)

  /** The name is the key under which the API stores the object. */
  datatype IngressController = IngressController(
    annotations: map<string, string>,
    finalizers: seq<string>,
    deleting: bool,
    spec: Spec,
    status: Status)
  {
    predicate Owned() {
      OWNER in annotations && annotations[OWNER] == CLOUD_OPERATOR
    }
  }

  /** One entry of the PublishingStrategy list. */
  datatype ApplicationIngress = ApplicationIngress(
    listening: string,
    isDefault: bool,
    dnsName: string,
    certificate: string,
    routeSelector: LabelSelector,
    lbType: string)

  /**
   * `apiHost` is the host of the API server URL, None if the URL does not parse; `platform` is None
   * when the infrastructure object has no platform status.
   */
  datatype Cluster = Cluster(apiHost: Option<string>, platform: Option<string>, gates: ClusterVersion.Gates) {
    predicate IsAws() { platform == Some("AWS") }

    /** Slicing off the leading `api.` panics. */
    predicate ShortHost() { apiHost.Some? && |apiHost.value| < 4 }

    /** Both reads of the infrastructure object find what they look for. */
    predicate Readable() { platform.Some? && !ShortHost() }

    function BaseDomain(): string {
      if apiHost.None? || ShortHost() then "" else apiHost.value[4..]
    }
  }

  /** The label before the first dot; None is the panic of slicing up to index -1. */
  function GetIngressName(dnsName: string): Option<string> {
    match IndexOf(dnsName, '.')
    case None => None
    case Some(k) => Some(dnsName[..k])
  }

  /** The name of the IngressController an entry refers to. */
  function NameOf(e: ApplicationIngress): Option<string> {
    var first := GetIngressName(e.dnsName);
    if first.Some? && e.isDefault then Some(DEFAULT) else first
  }

  predicate Complete(s: Spec) {
    && s.certificate.Some?
    && s.placement.Some? && s.placement.value.nodeSelector.Some?
    && s.endpoint.Some? && s.endpoint.value.loadBalancer.Some?
    && s.routeSelector.Some?
  }

  const BLANK_SPEC := Spec(
    Some(""), Some(NodePlacement(Some(LabelSelector(map[], [])), [])), "",
    Some(Endpoint("", Some(LoadBalancer("", None)))), Some(LabelSelector(map[], [])), None)

  /** A generated spec: every field the validators dereference is set. */
  type DesiredSpec = s: Spec | Complete(s) witness BLANK_SPEC

  function ScopeOf(listening: string): string {
    if listening == "internal" then "Internal" else "External"
  }

  /** On AWS an empty type means Classic; elsewhere the type is left alone. */
  function TypeOn(c: Cluster, e: ApplicationIngress): string {
    if c.IsAws() && e.lbType == "" then "Classic" else e.lbType
  }

  function ParametersOn(c: Cluster, e: ApplicationIngress): Option<ProviderParameters> {
    if !c.IsAws() then None
    else
      var timeout := if TypeOn(c, e) == "Classic" && c.gates.v411 then Some(ELB_IDLE_TIMEOUT) else None;
      Some(ProviderParameters("AWS", Some(AwsParameters(TypeOn(c, e), timeout))))
  }

  /** `generateIngressController` followed by the provider parameters Reconcile adds. */
  function Desired(c: Cluster, e: ApplicationIngress): DesiredSpec {
    Spec(
      Some(e.certificate),
      Some(NodePlacement(
             Some(LabelSelector(map[INFRA_NODE := ""], [])), [Toleration(INFRA_NODE, "NoSchedule", "Exists")])),
      e.dnsName,
      Some(Endpoint("LoadBalancerService", Some(LoadBalancer(ScopeOf(e.listening), ParametersOn(c, e))))),
      Some(LabelSelector(e.routeSelector.matchLabels, [])),
      None)
  }

  const BLANK_STATUS := Status(Some(map[]), "", None)

  /** The object handed to Create. */
  function NewController(spec: Spec): IngressController {
    IngressController(map[OWNER := CLOUD_OPERATOR], [], false, spec, BLANK_STATUS)
  }

  /** A validator's answer; Crash is a nil dereference. */
  datatype Check = Pass | Fail | Crash

  predicate ValidateStatic(g: ClusterVersion.Gates, domain: string, endpoint: Option<Endpoint>, desired: DesiredSpec) {
    && desired.domain == domain
    && (!g.v410 ==>
          && endpoint.Some? && endpoint.value.loadBalancer.Some?
          && desired.endpoint.value.loadBalancer.value.scope == endpoint.value.loadBalancer.value.scope)
  }

  predicate ValidateStaticSpec(g: ClusterVersion.Gates, ic: IngressController, desired: DesiredSpec) {
    ValidateStatic(g, ic.spec.domain, ic.spec.endpoint, desired)
  }

  predicate ValidateStaticStatus(g: ClusterVersion.Gates, ic: IngressController, desired: DesiredSpec) {
    ValidateStatic(g, ic.status.domain, ic.status.endpoint, desired)
  }

  function CompareType(p: ProviderParameters, lbType: string): Check {
    if p.aws.None? then Crash else if p.aws.value.lbType == lbType then Pass else Fail
  }

  /** `validateAWSLoadBalancerType`: the status speaks only when the spec has no endpoint at all. */
  function ValidateAwsType(ic: IngressController, lbType: string): Check {
    if ic.spec.endpoint.None? && ic.status.endpoint.None? then Fail
    else
      var lb := (if ic.spec.endpoint.None? then ic.status.endpoint else ic.spec.endpoint).value.loadBalancer;
      if lb.None? then Crash
      else if lb.value.parameters.Some? then CompareType(lb.value.parameters.value, lbType)
      else if lbType == "NLB" then Fail
      else Pass
  }

  datatype PatchField = Selector | Certificate | Placement | EndPoint
  datatype PatchCheck = AllMatch | Differs(field: PatchField) | PatchCrash

  predicate SelectorMatches(s: Spec, desired: DesiredSpec) {
    s.routeSelector.Some? && s.routeSelector.value.matchLabels == desired.routeSelector.value.matchLabels
  }

  predicate CertificateMatches(s: Spec, desired: DesiredSpec) {
    s.certificate == desired.certificate
  }

  predicate PlacementCrashes(s: Spec) {
    s.placement.Some? && s.placement.value.nodeSelector.None?
  }

  predicate PlacementMatches(s: Spec, desired: DesiredSpec) {
    && s.placement.Some? && s.placement.value.nodeSelector.Some?
    && s.placement.value.nodeSelector.value.matchLabels == desired.placement.value.nodeSelector.value.matchLabels
  }

  predicate EndpointMatches(g: ClusterVersion.Gates, s: Spec, desired: DesiredSpec) {
    var wanted := desired.endpoint.value.loadBalancer.value;
    && (g.v410 ==>
          && s.endpoint.Some? && s.endpoint.value.loadBalancer.Some?
          && s.endpoint.value.loadBalancer.value.scope == wanted.scope)
    && (g.v411 ==> s.endpoint.value.loadBalancer.value.parameters == wanted.parameters)
  }

  /** `validatePatchableSpec`: the first mismatch wins, in this order. */
  function ValidatePatchable(g: ClusterVersion.Gates, s: Spec, desired: DesiredSpec): PatchCheck {
    if !SelectorMatches(s, desired) then Differs(Selector)
    else if !CertificateMatches(s, desired) then Differs(Certificate)
    else if PlacementCrashes(s) then PatchCrash
    else if !PlacementMatches(s, desired) then Differs(Placement)
    else if !EndpointMatches(g, s, desired) then Differs(EndPoint)
    else AllMatch
  }

  /** `validatePatchableStatus`; a generated spec always has a route selector. */
  predicate ValidatePatchableStatus(ic: IngressController, desired: DesiredSpec) {
    ic.status.selector == Some(desired.routeSelector.value.matchLabels)
  }

  function CopyField(field: PatchField, s: Spec, desired: Spec): Spec {
    match field
    case Selector => s.(routeSelector := desired.routeSelector)
    case Certificate => s.(certificate := desired.certificate)
    case Placement => s.(placement := desired.placement)
    case EndPoint => s.(endpoint := desired.endpoint)
  }

  /** How many of the four patchable fields disagree. */
  function Mismatches(g: ClusterVersion.Gates, s: Spec, desired: DesiredSpec): (n: nat)
    ensures n <= 4
  {
    (if SelectorMatches(s, desired) then 0 else 1) + (if CertificateMatches(s, desired) then 0 else 1) +
    (if PlacementMatches(s, desired) then 0 else 1) + (if EndpointMatches(g, s, desired) then 0 else 1)
  }

  /** Copying the field a failed check named repairs that field and disturbs no check that passed. */
  lemma PatchRepairs(c: Cluster, e: ApplicationIngress, ic: IngressController, field: PatchField)
    requires ValidatePatchable(c.gates, ic.spec, Desired(c, e)) == Differs(field)
    ensures var ic' := ic.(spec := CopyField(field, ic.spec, Desired(c, e)));
            && Mismatches(c.gates, ic'.spec, Desired(c, e)) < Mismatches(c.gates, ic.spec, Desired(c, e))
            && (ValidateStaticSpec(c.gates, ic, Desired(c, e)) ==> ValidateStaticSpec(c.gates, ic', Desired(c, e)))
            && (c.IsAws() && ValidateAwsType(ic, TypeOn(c, e)).Pass? ==> ValidateAwsType(ic', TypeOn(c, e)).Pass?)
            && (!PlacementCrashes(ic.spec) ==> !PlacementCrashes(ic'.spec))
  {
  }

  /**
   * The spec handed to Create passes all three validators on every platform and version, whatever
   * metadata and status the object acquires later.
   */
  lemma GeneratedPassesAllChecks(c: Cluster, e: ApplicationIngress, ic: IngressController)
    requires ic.spec == Desired(c, e)
    ensures c.IsAws() ==> ValidateAwsType(ic, TypeOn(c, e)) == Pass
    ensures ValidateStaticSpec(c.gates, ic, Desired(c, e))
    ensures ValidatePatchable(c.gates, ic.spec, Desired(c, e)) == AllMatch
  {
  }
}
