/**
 * One pass of the PublishingStrategy controller as a function of the API state, the strategy and
 * the order in which its two map ranges run. PublishingReconciler.dfy has the code's own form.
 */
module Publishing {
  import opened Basics
  import CloudClients
  import FinalizerLists
  import opened IngressControllers
  import opened KubeApi

  datatype Outcome = Done | Requeue | Failed | Panicked
  /** An outcome that ends the pass early is never Done. */
  type Early = o: Outcome | o != Done witness Failed
  datatype Flow = Continue | Stop(outcome: Early)

  datatype Strategy = Strategy(entries: seq<ApplicationIngress>, listening: string)

  /** `ownedIngressExistingMap`: false until an entry of the strategy is seen to refer to the name. */
  type Seen = map<string, bool>

  predicate Published(m: Seen, name: string) {
    name in m && m[name]
  }

  datatype Step = Step(w: World, flow: Flow)
  datatype Scan = Scan(w: World, seen: Seen, flow: Flow)

  function OwnedNames(w: World): set<string> {
    set n | n in w.ics && w.ics[n].Owned()
  }

  function NoNewSecond(entries: seq<ApplicationIngress>, m: Seen): Flow {
    if entries == [] then Continue
    else if entries[0].isDefault then NoNewSecond(entries[1..], m)
    else
      match GetIngressName(entries[0].dnsName)
      case None => Stop(Panicked)
      case Some(n) => if n in m then NoNewSecond(entries[1..], m) else Stop(Failed)
  }

  function RequeueIfAcked(ack: Ack): Flow {
    if ack == Acked then Stop(Requeue) else Stop(Failed)
  }

  /** `ensureIngressController`: the object is already being deleted. */
  function Recreate(w: World, name: string, ic: IngressController, desired: Spec): Step {
    if CLUSTER_FINALIZER in ic.finalizers then Step(w, Stop(Requeue))
    else if CLOUD_FINALIZER in ic.finalizers then
      match FinalizerLists.Remove(ic.finalizers, CLOUD_FINALIZER)
      case None => Step(w, Stop(Panicked))
      case Some(rest) =>
        var w' := AfterStore(w, name, ic.(finalizers := rest));
        if WriteAck(w, name) != Acked then Step(w', Stop(Failed))
        else if rest != [] then Step(w', Stop(Requeue))
        else DeleteAndCreate(w', name, desired)
    else if ic.finalizers != [] then Step(w, Stop(Requeue))
    else DeleteAndCreate(w, name, desired)
  }

  function DeleteAndCreate(w: World, name: string, desired: Spec): Step {
    var w' := AfterDelete(w, name);
    if WriteAck(w, name) == Rejected then Step(w', Stop(Failed))
    else Step(AfterCreate(w', name, NewController(desired)), RequeueIfAcked(CreateAck(w', name)))
  }

  function EnsureAwsType(w: World, name: string, ic: IngressController, lbType: string): Step {
    match ValidateAwsType(ic, lbType)
    case Crash => Step(w, Stop(Panicked))
    case Fail => Step(AfterDelete(w, name), Stop(Requeue))
    case Pass => Step(w, Continue)
  }

  /** The error of the delete itself is only logged. */
  function EnsureStatic(c: Cluster, w: World, name: string, ic: IngressController, desired: DesiredSpec): Step {
    if ValidateStaticSpec(c.gates, ic, desired) then Step(w, Continue)
    else if name != DEFAULT then Step(AfterDelete(w, name), Stop(Requeue))
    else if ValidateStaticStatus(c.gates, ic, desired) then Step(w, Continue)
    else if CLOUD_FINALIZER in ic.finalizers then Step(AfterDelete(w, name), Stop(Requeue))
    else
      var w' := AfterStore(w, name, ic.(finalizers := ic.finalizers + [CLOUD_FINALIZER]));
      if WriteAck(w, name) != Acked then Step(w', Stop(Failed))
      else Step(AfterDelete(w', name), Stop(Requeue))
  }

  function EnsurePatchable(c: Cluster, w: World, name: string, ic: IngressController, desired: DesiredSpec): Step {
    match ValidatePatchable(c.gates, ic.spec, desired)
    case AllMatch => Step(w, Continue)
    case PatchCrash => Step(w, Stop(Panicked))
    case Differs(field) =>
      if name == DEFAULT && field == Selector && ValidatePatchableStatus(ic, desired) then Step(w, Continue)
      else
        var ic' := ic.(spec := CopyField(field, ic.spec, desired));
        Step(AfterStore(w, name, ic'), RequeueIfAcked(WriteAck(w, name)))
  }

  /** The checks on an existing object, in the loop's order. */
  function EnsureExisting(c: Cluster, w: World, name: string, ic: IngressController, e: ApplicationIngress): Step {
    var desired := Desired(c, e);
    if ic.deleting then Recreate(w, name, ic, desired)
    else
      var aws := if c.IsAws() then EnsureAwsType(w, name, ic, TypeOn(c, e)) else Step(w, Continue);
      if aws.flow != Continue then aws
      else
        var fixedPart := EnsureStatic(c, aws.w, name, ic, desired);
        if fixedPart.flow != Continue then fixedPart
        else EnsurePatchable(c, fixedPart.w, name, ic, desired)
  }

  /** One turn of the loop over the strategy's entries. */
  function Visit(c: Cluster, base: string, e: ApplicationIngress, w: World, m: Seen): Scan {
    match NameOf(e)
    case None => Scan(w, m, Stop(Panicked))
    case Some(name) =>
      if e.isDefault && !HasSuffix(e.dnsName, base) then Scan(w, m, Stop(Failed))
      else if w.Fails() then Scan(w.Next(), m, Stop(Failed))
      else if c.platform.None? then Scan(w.Next(), m, Stop(Panicked))
      else
        var w1 := w.Next();
        match GetReply(w1, name)
        case Unavailable => Scan(w1.Next(), m, Stop(Failed))
        case Missing =>
          var flow := RequeueIfAcked(CreateAck(w1.Next(), name));
          Scan(AfterCreate(w1.Next(), name, NewController(Desired(c, e))), m, flow)
        case Found(ic) =>
          var step := EnsureExisting(c, w1.Next(), name, ic, e);
          Scan(step.w, m[name := true], step.flow)
  }

  function VisitAll(c: Cluster, base: string, entries: seq<ApplicationIngress>, w: World, m: Seen): Scan {
    if entries == [] then Scan(w, m, Continue)
    else
      var first := Visit(c, base, entries[0], w, m);
      if first.flow != Continue then first
      else VisitAll(c, base, entries[1..], first.w, first.seen)
  }

  function Annotated(ic: IngressController): IngressController {
    ic.(annotations := map[OWNER := CLOUD_OPERATOR, DELETE_LB := ""])
  }

  /** `ensureAnnotationsDefined`; it stops, successfully, at the first object already annotated. */
  function Annotate(w: World, m: Seen, order: seq<string>): Step
    decreases order
  {
    if order == [] then Step(w, Continue)
    else if !Published(m, order[0]) then Annotate(w, m, order[1..])
    else
      match GetReply(w, order[0])
      case Unavailable => Step(w.Next(), Stop(Failed))
      case Missing => Step(w.Next(), Stop(Failed))
      case Found(ic) =>
        if DELETE_LB in ic.annotations then Step(w.Next(), Continue)
        else
          var w' := AfterStore(w.Next(), order[0], Annotated(ic));
          if WriteAck(w.Next(), order[0]) == Acked then Annotate(w', m, order[1..]) else Step(w', Stop(Failed))
  }

  /** How the switch of the API's scope ends; what it does is modelled in the cloud modules. */
  datatype SwitchAnswer = Switched | Refused | Crashed

  /** The cloud's side of a pass: whether a client can be made of what is read, and its answer. */
  datatype CloudSide = CloudSide(usable: bool, answer: SwitchAnswer)

  predicate Switches(listening: string) {
    listening == "internal" || listening == "external"
  }

  /** `ensureAliasScope`, with a new cloud client each time. */
  function AliasScope(c: Cluster, w: World, listening: string, cloud: CloudSide): Step {
    if w.Fails() then Step(w.Next(), Stop(Failed))
    else if c.platform.None? then Step(w.Next(), Stop(Panicked))
    else
      var client := CloudClients.GetClientFor(c.platform.value, cloud.usable, w.Next().faults);
      var w' := w.(faults := client.faults);
      if !client.ok then Step(w', Stop(Panicked))
      else if !Switches(listening) then Step(w', Continue)
      else
        match cloud.answer
        case Switched => Step(w', Continue)
        case Refused => Step(w', Stop(Failed))
        case Crashed => Step(w', Stop(Panicked))
  }

  function Disowned(ic: IngressController): IngressController {
    ic.(annotations := map[OWNER := CLUSTER_OPERATOR, DELETE_LB := "true"], finalizers := [CLUSTER_FINALIZER])
  }

  /** `ensureDefaultICOwnedByClusterIngressOperator`, reached on 4.13 or later only. */
  function Disown(w: World): Step {
    match GetReply(w, DEFAULT)
    case Unavailable => Step(w.Next(), Stop(Failed))
    case Missing => Step(w.Next(), Stop(Failed))
    case Found(ic) =>
      var w' := AfterStore(w.Next(), DEFAULT, Disowned(ic));
      Step(w', if WriteAck(w.Next(), DEFAULT) == Acked then Continue else Stop(Failed))
  }

  function DeleteUnpublished(w: World, m: Seen, order: seq<string>): Step
    decreases order
  {
    if order == [] then Step(w, Continue)
    else if order[0] !in m || m[order[0]] then DeleteUnpublished(w, m, order[1..])
    else if !GetReply(w, order[0]).Found? then Step(w.Next(), Stop(Failed))
    else
      var w' := AfterDelete(w.Next(), order[0]);
      if WriteAck(w.Next(), order[0]) == Acked then DeleteUnpublished(w', m, order[1..]) else Step(w', Stop(Failed))
  }

  /** The orders in which the annotation and the deletion range visit the map, and the cloud's side. */
  datatype Choices = Choices(annotate: seq<string>, delete: seq<string>, cloud: CloudSide)

  /** One pass of a run with one strategy: which calls fail, the range orders, the cloud. */
  datatype PassInput = PassInput(faults: seq<bool>, choices: Choices)

  datatype PassResult = PassResult(w: World, outcome: Outcome)

  function Finish(s: Step): PassResult {
    PassResult(s.w, if s.flow == Continue then Done else s.flow.outcome)
  }

  /** Everything after the loop. */
  function AfterLoop(c: Cluster, s: Strategy, w: World, m: Seen, o: Choices): PassResult {
    var notes := Annotate(w, m, o.annotate);
    if notes.flow != Continue then Finish(notes)
    else
      var alias := AliasScope(c, notes.w, s.listening, o.cloud);
      if alias.flow != Continue then Finish(alias)
      else if c.gates.v413 && !Published(m, DEFAULT) then Finish(Disown(alias.w))
      else Finish(DeleteUnpublished(alias.w, m, o.delete))
  }

  function InitialSeen(w: World): Seen {
    map n | n in OwnedNames(w) :: false
  }

  /** The error of reading the base domain is dropped, and every name ends in the empty string. */
  function BaseSeen(c: Cluster, w: World): string {
    if w.Next().Fails() then "" else c.BaseDomain()
  }

  /** The world after the three reads that precede the loop: strategy, base domain, list. */
  function AfterReads(w: World): World { w.Next().Next().Next() }

  /** The base domain is read of a host too short for it. */
  predicate HostPanics(c: Cluster, w: World) { !w.Fails() && !w.Next().Fails() && c.ShortHost() }

  predicate ReadsFail(c: Cluster, w: World) { w.Fails() || HostPanics(c, w) || w.Next().Next().Fails() }

  function Loop(c: Cluster, s: Strategy, w: World): Scan {
    VisitAll(c, BaseSeen(c, w), s.entries, AfterReads(w), InitialSeen(w))
  }

  /** One Reconcile; `instance` is None when the PublishingStrategy is gone. */
  function Reconcile(c: Cluster, instance: Option<Strategy>, w: World, o: Choices): PassResult {
    if w.Fails() then PassResult(w.Next(), Failed)
    else if instance.None? then PassResult(w.Next(), Done)
    else if HostPanics(c, w) then PassResult(w.Next().Next(), Panicked)
    else if ReadsFail(c, w) then PassResult(AfterReads(w), Failed)
    else
      var check := NoNewSecond(instance.value.entries, InitialSeen(w));
      if check != Continue then Finish(Step(AfterReads(w), check))
      else
        var loop := Loop(c, instance.value, w);
        if loop.flow != Continue then Finish(Step(loop.w, loop.flow))
        else AfterLoop(c, instance.value, loop.w, loop.seen, o)
  }

  /** The orders list the map the loop leaves behind. */
  ghost predicate ValidOrders(c: Cluster, instance: Option<Strategy>, w: World, o: Choices) {
    instance.Some? && Loop(c, instance.value, w).flow == Continue ==>
      var m := Loop(c, instance.value, w).seen;
      Listing(o.annotate, m.Keys) && Listing(o.delete, m.Keys)
  }
}
