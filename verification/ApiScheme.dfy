/**
 * One pass of the APIScheme controller: the Service in front of the admin API, its DNS record, and
 * the finalizer that keeps the APIScheme until the record is deleted.
 */
module ApiScheme {
  import opened Basics
  import CloudClients
  import opened ConditionHistory

  const DNS_FINALIZER := "dns.cloudingress.managed.openshift.io"
  const IDLE_KEY := "service.beta.kubernetes.io/aws-load-balancer-connection-idle-timeout"
  const IDLE_VALUE := "1800"
  const TAG_KEY := "service.beta.kubernetes.io/aws-load-balancer-additional-resource-tags"
  const TAG_VALUE := "red-hat-managed=true"
  const LOCAL := "Local"

  datatype Scheme = Scheme(
    enabled: bool,
    dnsName: string,
    cidrs: seq<string>,
    finalizers: seq<string>,
    deleting: bool,
    conditions: seq<Condition>,
    state: Option<ConditionType>)

  /** `lb` is the load balancer the cloud makes for the Service. */
  datatype Service = Service(
    ranges: seq<string>,
    policy: string,
    annotations: map<string, string>,
    finalizers: seq<string>,
    deleting: bool,
    lb: nat)

  /** The address records of a zone: which load balancer each name points at. */
  type Zone = map<string, nat>

  /**
   * `zones` in the order in which the cloud client goes through them; `platform` is None when the
   * infrastructure object has no platform status; `clientKnown` is the package variable that caches the
   * cloud client; `lbs` counts the load balancers made so far.
   */
  datatype World = World(
    cr: Option<Scheme>,
    services: map<string, Service>,
    zones: seq<Zone>,
    platform: Option<string>,
    clientKnown: bool,
    lbs: nat,
    faults: seq<bool>)
  {
    predicate IsAws() { platform == Some(CloudClients.AWS) }

    predicate Fails() { CallFails(faults) }

    function Next(): World { this.(faults := LaterCalls(faults)) }
  }

  datatype CloudReply = CloudOk | DnsUpdate(text: string) | RuleNotFound | NotReady | OtherError | Crash

  /**
   * The cloud's side of a pass: whether a client can be made of what is read, how the DNS call ends,
   * and how many zones it went through if it does not succeed.
   */
  datatype Cloud = Cloud(usable: bool, reply: CloudReply, reached: nat) {
    predicate GoesThrough(i: nat) { reply.CloudOk? || i < reached }
  }

  datatype Outcome = Done | Requeue | Failed | Panicked

  /** EnsureAdminAPIDNS with the object the API server holds at that moment, or DeleteAdminAPIDNS. */
  datatype CloudCall = EnsureCall(name: string, held: Option<Scheme>) | DeleteCall(name: string, ok: bool)

  /** `calls` are the calls the pass makes to the cloud. */
  datatype Result = Result(w: World, outcome: Outcome, calls: seq<CloudCall>)

  function NoCall(w: World, outcome: Outcome): Result {
    Result(w, outcome, [])
  }

  const COULD_NOT := "Couldn't reconcile"
  const SUCCESS := "Success"
  const CREATED := "Admin API Endpoint created"
  const LB_NOT_READY := "Load balancer isn't ready"

  function Reported(cr: Scheme, reason: string, message: string, ctype: ConditionType, now: int): Scheme {
    cr.(conditions := Set(cr.conditions, Condition(ctype, True, reason, message, now), ReasonOrMessageChanged()),
        state := Some(ctype))
  }

  /** `SetAPISchemeStatus`: the error of the status update is only logged. */
  function SetStatus(w: World, cr: Scheme, reason: string, message: string, ctype: ConditionType, now: int): World {
    if w.Fails() || w.cr.None? then w.Next()
    else
      var told := Reported(cr, reason, message, ctype, now);
      w.Next().(cr := Some(w.cr.value.(conditions := told.conditions, state := told.state)))
  }

  predicate UpdateCrOk(w: World) { !w.Fails() && w.cr.Some? }

  /** An update of the object leaves the status subresource alone. */
  function AfterUpdateCr(w: World, cr: Scheme): World {
    if !UpdateCrOk(w) then w.Next()
    else if cr.deleting && cr.finalizers == [] then w.Next().(cr := None)
    else w.Next().(cr := Some(cr.(conditions := w.cr.value.conditions, state := w.cr.value.state)))
  }

  predicate ServiceWriteOk(w: World, name: string) { !w.Fails() && name in w.services }

  function AfterUpdateService(w: World, name: string, svc: Service): World {
    if !ServiceWriteOk(w, name) then w.Next()
    else if svc.deleting && svc.finalizers == [] then w.Next().(services := w.services - {name})
    else w.Next().(services := w.services[name := svc])
  }

  function AfterDeleteService(w: World, name: string): World {
    if !ServiceWriteOk(w, name) then w.Next()
    else if w.services[name].finalizers == [] then w.Next().(services := w.services - {name})
    else w.Next().(services := w.services[name := w.services[name].(deleting := true)])
  }

  /** `newServiceFor`; the cloud makes a new load balancer for it. */
  function NewService(cr: Scheme, lb: nat): Service {
    Service(cr.cidrs, LOCAL, map[IDLE_KEY := IDLE_VALUE, TAG_KEY := TAG_VALUE], [], false, lb)
  }

  function EnsureRecord(zones: seq<Zone>, name: string, lb: nat, cloud: Cloud): seq<Zone> {
    seq(|zones|, i requires 0 <= i < |zones| => if cloud.GoesThrough(i) then zones[i][name := lb] else zones[i])
  }

  /**
   * On AWS the change names the load balancer the Service has now, and a record with another target
   * makes it invalid, which passes for a missing record; GCP deletes whatever is listed at the name.
   */
  function DeleteRecord(zones: seq<Zone>, name: string, lb: nat, exact: bool, cloud: Cloud): seq<Zone> {
    seq(|zones|, i requires 0 <= i < |zones| =>
      if cloud.GoesThrough(i) && name in zones[i] && (exact ==> zones[i][name] == lb) then zones[i] - {name}
      else zones[i])
  }

  datatype ClientState = Connected | Unreadable | NoClient
  datatype Connection = Connection(w: World, state: ClientState)

  /** The cloud client is made on first use; only the read of the platform has an error path. */
  function Connect(w: World, usable: bool): Connection {
    if w.clientKnown then Connection(w, Connected)
    else if w.Fails() then Connection(w.Next(), Unreadable)
    else if w.platform.None? then Connection(w.Next(), NoClient)
    else
      var client := CloudClients.GetClientFor(w.platform.value, usable, w.Next().faults);
      Connection(w.(faults := client.faults, clientKnown := client.ok), if client.ok then Connected else NoClient)
  }

  function Reconcile(w: World, cloud: Cloud, now: int): Result {
    if w.Fails() then NoCall(w.Next(), Failed)
    else if w.cr.None? || !w.cr.value.enabled then NoCall(w.Next(), Done)
    else
      var cr, connection := w.cr.value, Connect(w.Next(), cloud.usable);
      var w1 := connection.w;
      if connection.state == NoClient then NoCall(w1, Panicked)
      else if connection.state == Unreadable then
        NoCall(SetStatus(w1, cr, COULD_NOT, "Couldn't create a Cloud Client", Error, now), Failed)
      else if cr.deleting then Finalize(w1, cr, cloud, now)
      else if DNS_FINALIZER in cr.finalizers then EnsureService(w1, cr, cloud, now)
      else
        var cr' := cr.(finalizers := cr.finalizers + [DNS_FINALIZER]);
        if UpdateCrOk(w1) then EnsureService(AfterUpdateCr(w1, cr'), cr', cloud, now)
        else NoCall(AfterUpdateCr(w1, cr'), Failed)
  }

  /** The object is being deleted. */
  function Finalize(w: World, cr: Scheme, cloud: Cloud, now: int): Result {
    if DNS_FINALIZER !in cr.finalizers then NoCall(w, Done)
    else if w.Fails() then NoCall(w.Next(), Failed)
    else if cr.dnsName !in w.services then DropFinalizer(w.Next(), cr)
    else
      var zones := DeleteRecord(w.zones, cr.dnsName, w.services[cr.dnsName].lb, w.IsAws(), cloud);
      var w1, call := w.Next().(zones := zones), DeleteCall(cr.dnsName, cloud.reply.CloudOk?);
      if cloud.reply.Crash? then Result(w1, Panicked, [call])
      else if cloud.reply.CloudOk? then DropFinalizer(w1, cr).(calls := [call])
      else
        var message := if cloud.reply.NotReady? then LB_NOT_READY else "Failed to delete the DNS record";
        var outcome := if cloud.reply.NotReady? then Requeue else Failed;
        Result(SetStatus(w1, cr, COULD_NOT, message, Error, now), outcome, [call])
  }

  function DropFinalizer(w: World, cr: Scheme): Result {
    NoCall(AfterUpdateCr(w, cr.(finalizers := Without(cr.finalizers, DNS_FINALIZER))),
           if UpdateCrOk(w) then Requeue else Failed)
  }

  /** The object is live and carries the finalizer: one repair of the Service per pass. */
  function EnsureService(w: World, cr: Scheme, cloud: Cloud, now: int): Result {
    var name := cr.dnsName;
    if w.Fails() then NoCall(w.Next(), Failed)
    else if name !in w.services then
      if w.Next().Fails() then NoCall(w.Next().Next(), Failed)
      else NoCall(w.Next().Next().(services := w.services[name := NewService(cr, w.lbs)], lbs := w.lbs + 1), Requeue)
    else
      var w1, svc := w.Next(), w.services[name];
      if svc.ranges != cr.cidrs then UpdateAndRequeue(w1, name, svc.(ranges := cr.cidrs))
      else if svc.policy != LOCAL then UpdateAndRequeue(w1, name, svc.(policy := LOCAL))
      else
        var idle := Annotate(w1, name, svc, IDLE_KEY, IDLE_VALUE);
        if !idle.ok then NoCall(idle.w, Failed)
        else
          var tag := Annotate(idle.w, name, idle.svc, TAG_KEY, TAG_VALUE);
          if !tag.ok then NoCall(tag.w, Failed)
          else EnsureDns(tag.w.(zones := EnsureRecord(w.zones, name, svc.lb, cloud)), cr, cloud.reply, now)
  }

  function UpdateAndRequeue(w: World, name: string, svc: Service): Result {
    NoCall(AfterUpdateService(w, name, svc), if ServiceWriteOk(w, name) then Requeue else Failed)
  }

  datatype Annotation = Annotation(w: World, svc: Service, ok: bool)

  function Annotate(w: World, name: string, svc: Service, key: string, value: string): Annotation {
    if key in svc.annotations && svc.annotations[key] == value then Annotation(w, svc, true)
    else
      var svc' := svc.(annotations := svc.annotations[key := value]);
      Annotation(AfterUpdateService(w, name, svc'), svc', ServiceWriteOk(w, name))
  }

  /** What the controller reports about the cloud's answer to EnsureAdminAPIDNS. */
  datatype Report = Report(reason: string, message: string, ctype: ConditionType)

  function ReportOf(cr: Scheme, reply: CloudReply): Report {
    match reply
    case CloudOk => Report(SUCCESS, CREATED, Ready)
    case DnsUpdate(text) => Report(COULD_NOT, "Couldn't ensure the admin API endpoint: DNS Update Error " + text, Error)
    case RuleNotFound => Report(COULD_NOT, "Forwarding rule was deleted on cloud provider", Error)
    case _ =>
      var message := if Find(cr.conditions, Ready).None? then LB_NOT_READY else "Load balancer was deleted";
      Report(COULD_NOT, message, Error)
  }

  /** A lost load balancer is recovered by deleting the Service; one that was never ready is waited for. */
  predicate Recreates(cr: Scheme, reply: CloudReply) {
    reply.RuleNotFound? || (reply.NotReady? && Find(cr.conditions, Ready).Some?)
  }

  function OutcomeOf(reply: CloudReply): Outcome {
    match reply
    case CloudOk => Done
    case DnsUpdate(_) => Failed
    case OtherError => Failed
    case Crash => Panicked
    case _ => Requeue
  }

  function EnsureDns(w: World, cr: Scheme, reply: CloudReply, now: int): Result {
    var call := EnsureCall(cr.dnsName, w.cr);
    if reply.OtherError? || reply.Crash? then Result(w, OutcomeOf(reply), [call])
    else
      var report := ReportOf(cr, reply);
      var told := SetStatus(w, cr, report.reason, report.message, report.ctype, now);
      Result(if Recreates(cr, reply) then AfterDeleteService(told, cr.dnsName) else told, OutcomeOf(reply), [call])
  }
}
