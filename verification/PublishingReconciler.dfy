/**
 * The PublishingStrategy controller in the code's own form: methods that call the API, update the
 * fetched object and the map of seen names, and loop. Each is proved to do what Publishing says.
 */
module PublishingReconciler {
  import opened Basics
  import ClusterVersion
  import FinalizerLists
  import opened IngressControllers
  import opened KubeApi
  import opened Publishing

  class Reconciler {
    const client: Api
    const cluster: Cluster

    /** The version gates are read from CLUSTER_VERSION. */
    constructor (client: Api, apiHost: Option<string>, platform: Option<string>, clusterVersion: Option<string>)
      ensures this.client == client
      ensures cluster == Cluster(apiHost, platform, ClusterVersion.GatesOf(clusterVersion))
    {
      this.client, cluster := client, Cluster(apiHost, platform, ClusterVersion.GatesOf(clusterVersion));
    }

    method AddFinalizer(name: string, ic: IngressController, finalizer: string)
      returns (ok: bool, ic': IngressController)
      modifies client
      ensures ic' == ic.(finalizers := ic.finalizers + [finalizer])
      ensures client.View() == AfterStore(old(client.View()), name, ic')
      ensures ok <==> WriteAck(old(client.View()), name) == Acked
    {
      ic' := ic.(finalizers := ic.finalizers + [finalizer]);
      var ack := client.Store(name, ic');
      ok := ack == Acked;
    }

    method RemoveFinalizer(name: string, ic: IngressController, finalizer: string)
      returns (panicked: bool, ok: bool, ic': IngressController)
      modifies client
      ensures panicked <==> FinalizerLists.Remove(ic.finalizers, finalizer).None?
      ensures panicked ==> client.View() == old(client.View())
      ensures !panicked ==>
                && ic' == ic.(finalizers := FinalizerLists.Remove(ic.finalizers, finalizer).value)
                && client.View() == AfterStore(old(client.View()), name, ic')
                && (ok <==> WriteAck(old(client.View()), name) == Acked)
    {
      ok, ic' := false, ic;
      var list := new string[|ic.finalizers|](i requires 0 <= i < |ic.finalizers| => ic.finalizers[i]);
      assert list[..] == ic.finalizers;
      var len;
      panicked, len := FinalizerLists.RemoveInPlace(list, finalizer);
      if !panicked {
        ic' := ic.(finalizers := list[..len]);
        var ack := client.Store(name, ic');
        ok := ack == Acked;
      }
    }

    method EnsureNoNewSecondIngressCreated(entries: seq<ApplicationIngress>, m: Seen) returns (flow: Flow)
      ensures flow == NoNewSecond(entries, m)
    {
      for i := 0 to |entries|
        invariant NoNewSecond(entries[i..], m) == NoNewSecond(entries, m)
      {
        assert entries[i..][1..] == entries[i + 1..];
        if !entries[i].isDefault {
          match GetIngressName(entries[i].dnsName)
          case None => return Stop(Panicked);
          case Some(name) => if name !in m { return Stop(Failed); }
        }
      }
      return Continue;
    }

    method EnsureIngressController(name: string, ic: IngressController, desired: Spec) returns (flow: Flow)
      modifies client
      ensures Step(client.View(), flow) == Recreate(old(client.View()), name, ic, desired)
    {
      var found := FinalizerLists.Contains(ic.finalizers, CLUSTER_FINALIZER);
      if found {
        return Stop(Requeue);
      }
      var current := ic;
      found := FinalizerLists.Contains(ic.finalizers, CLOUD_FINALIZER);
      if found {
        var panicked, ok;
        panicked, ok, current := RemoveFinalizer(name, ic, CLOUD_FINALIZER);
        if panicked {
          return Stop(Panicked);
        }
        if !ok {
          return Stop(Failed);
        }
      }
      if |current.finalizers| != 0 {
        return Stop(Requeue);
      }
      var ack := client.Delete(name);
      if ack == Rejected {
        return Stop(Failed);
      }
      ack := client.Create(name, NewController(desired));
      return RequeueIfAcked(ack);
    }

    method EnsureAwsLoadBalancerType(name: string, ic: IngressController, lbType: string) returns (flow: Flow)
      modifies client
      ensures Step(client.View(), flow) == EnsureAwsType(old(client.View()), name, ic, lbType)
    {
      var valid := ValidateAwsType(ic, lbType);
      if valid == Crash {
        return Stop(Panicked);
      }
      if valid == Fail {
        var _ := client.Delete(name);
        return Stop(Requeue);
      }
      return Continue;
    }

    method EnsureStaticSpec(name: string, ic: IngressController, desired: DesiredSpec) returns (flow: Flow)
      modifies client
      ensures Step(client.View(), flow) == EnsureStatic(cluster, old(client.View()), name, ic, desired)
    {
      if ValidateStaticSpec(cluster.gates, ic, desired) {
        return Continue;
      }
      if name == DEFAULT {
        if ValidateStaticStatus(cluster.gates, ic, desired) {
          return Continue;
        }
        var found := FinalizerLists.Contains(ic.finalizers, CLOUD_FINALIZER);
        if !found {
          var ok, _ := AddFinalizer(name, ic, CLOUD_FINALIZER);
          if !ok {
            return Stop(Failed);
          }
        }
      }
      var _ := client.Delete(name);
      return Stop(Requeue);
    }

    method EnsurePatchableSpec(name: string, ic: IngressController, desired: DesiredSpec) returns (flow: Flow)
      modifies client
      ensures Step(client.View(), flow) == EnsurePatchable(cluster, old(client.View()), name, ic, desired)
    {
      match ValidatePatchable(cluster.gates, ic.spec, desired)
      case AllMatch => return Continue;
      case PatchCrash => return Stop(Panicked);
      case Differs(field) =>
        if name == DEFAULT && field == Selector && ValidatePatchableStatus(ic, desired) {
          return Continue;
        }
        var current := ic.(spec := CopyField(field, ic.spec, desired));
        var ack := client.Store(name, current);
        return RequeueIfAcked(ack);
    }

    method VisitEntry(base: string, entry: ApplicationIngress, m: Seen) returns (flow: Flow, m': Seen)
      modifies client
      ensures Scan(client.View(), m', flow) == Visit(cluster, base, entry, old(client.View()), m)
    {
      m' := m;
      var first := GetIngressName(entry.dnsName);
      if first.None? {
        return Stop(Panicked), m;
      }
      var name := first.value;
      if entry.isDefault {
        name := DEFAULT;
        if !HasSuffix(entry.dnsName, base) {
          return Stop(Failed), m;
        }
      }
      var desired := Desired(cluster, entry);
      var ok := client.Call();
      if !ok {
        return Stop(Failed), m;
      }
      if cluster.platform.None? {
        return Stop(Panicked), m;
      }
      var reply := client.Get(name);
      match reply
      case Unavailable => return Stop(Failed), m;
      case Missing =>
        var ack := client.Create(name, NewController(desired));
        return RequeueIfAcked(ack), m;
      case Found(ic) =>
        m' := m'[name := true];
        if ic.deleting {
          flow := EnsureIngressController(name, ic, desired);
          return;
        }
        if cluster.IsAws() {
          flow := EnsureAwsLoadBalancerType(name, ic, TypeOn(cluster, entry));
          if flow != Continue {
            return;
          }
        }
        flow := EnsureStaticSpec(name, ic, desired);
        if flow != Continue {
          return;
        }
        flow := EnsurePatchableSpec(name, ic, desired);
    }

    method EnsureAnnotationsDefined(m: Seen) returns (flow: Flow, ghost order: seq<string>)
      modifies client
      ensures Listing(order, m.Keys)
      ensures Step(client.View(), flow) == Annotate(old(client.View()), m, order)
    {
      var names := RangeOrder(m.Keys);
      order := names;
      for i := 0 to |names|
        invariant Annotate(client.View(), m, names[i..]) == Annotate(old(client.View()), m, names)
      {
        assert names[i..][1..] == names[i + 1..];
        if m[names[i]] {
          var reply := client.Get(names[i]);
          if !reply.Found? {
            return Stop(Failed), names;
          }
          if DELETE_LB in reply.ic.annotations {
            return Continue, names;
          }
          var ack := client.Store(names[i], Annotated(reply.ic));
          if ack != Acked {
            return Stop(Failed), names;
          }
        }
      }
      return Continue, names;
    }

    method EnsureAliasScope(listening: string, cloud: CloudSide) returns (flow: Flow)
      modifies client
      ensures Step(client.View(), flow) == AliasScope(cluster, old(client.View()), listening, cloud)
    {
      var ok := client.Call();
      if !ok {
        return Stop(Failed);
      }
      if cluster.platform.None? {
        return Stop(Panicked);
      }
      var built := client.GetClientFor(cluster.platform.value, cloud.usable);
      if !built {
        return Stop(Panicked);
      }
      if listening == "internal" || listening == "external" {
        match cloud.answer
        case Switched =>
        case Refused => return Stop(Failed);
        case Crashed => return Stop(Panicked);
      }
      return Continue;
    }

    method EnsureDefaultOwnedByClusterIngressOperator() returns (flow: Flow)
      modifies client
      ensures Step(client.View(), flow) == Disown(old(client.View()))
    {
      var reply := client.Get(DEFAULT);
      if !reply.Found? {
        return Stop(Failed);
      }
      var ack := client.Store(DEFAULT, Disowned(reply.ic));
      return if ack == Acked then Continue else Stop(Failed);
    }

    method DeleteUnpublishedIngressControllers(m: Seen) returns (flow: Flow, ghost order: seq<string>)
      modifies client
      ensures Listing(order, m.Keys)
      ensures Step(client.View(), flow) == DeleteUnpublished(old(client.View()), m, order)
    {
      var names := RangeOrder(m.Keys);
      order := names;
      for i := 0 to |names|
        invariant DeleteUnpublished(client.View(), m, names[i..]) == DeleteUnpublished(old(client.View()), m, names)
      {
        assert names[i..][1..] == names[i + 1..];
        if !m[names[i]] {
          var reply := client.Get(names[i]);
          if !reply.Found? {
            return Stop(Failed), names;
          }
          var ack := client.Delete(names[i]);
          if ack != Acked {
            return Stop(Failed), names;
          }
        }
      }
      return Continue, names;
    }

    method VisitEntries(base: string, entries: seq<ApplicationIngress>, m0: Seen) returns (flow: Flow, m: Seen)
      modifies client
      ensures Scan(client.View(), m, flow) == VisitAll(cluster, base, entries, old(client.View()), m0)
    {
      m := m0;
      for i := 0 to |entries|
        invariant VisitAll(cluster, base, entries[i..], client.View(), m)
               == VisitAll(cluster, base, entries, old(client.View()), m0)
      {
        assert entries[i..][1..] == entries[i + 1..];
        flow, m := VisitEntry(base, entries[i], m);
        if flow != Continue {
          return;
        }
      }
      flow := Continue;
    }

    method FinishPass(strategy: Strategy, m: Seen, cloud: CloudSide) returns (outcome: Outcome, ghost o: Choices)
      modifies client
      ensures o.cloud == cloud
      ensures Listing(o.annotate, m.Keys) && Listing(o.delete, m.Keys)
      ensures PassResult(client.View(), outcome) == AfterLoop(cluster, strategy, old(client.View()), m, o)
    {
      var flow; ghost var order;
      flow, order := EnsureAnnotationsDefined(m);
      o := Choices(order, order, cloud);
      if flow == Continue {
        flow := EnsureAliasScope(strategy.listening, cloud);
        if flow == Continue {
          if cluster.gates.v413 && !Published(m, DEFAULT) {
            flow := EnsureDefaultOwnedByClusterIngressOperator();
          } else {
            flow, order := DeleteUnpublishedIngressControllers(m);
            o := o.(delete := order);
          }
        }
      }
      outcome := if flow == Continue then Done else flow.outcome;
    }

    method ReconcileOnce(instance: Option<Strategy>, cloud: CloudSide) returns (outcome: Outcome, ghost o: Choices)
      modifies client
      ensures o.cloud == cloud
      ensures PassResult(client.View(), outcome) == Reconcile(cluster, instance, old(client.View()), o)
      ensures outcome == Done ==> ValidOrders(cluster, instance, old(client.View()), o)
    {
      o := Choices([], [], cloud);
      var ok := client.Call();
      if !ok {
        return Failed, o;
      }
      if instance.None? {
        return Done, o;
      }
      ok := client.Call();
      if ok && cluster.ShortHost() {
        return Panicked, o;
      }
      var base := if ok then cluster.BaseDomain() else "";
      var m: Seen := map n | n in client.ics && client.ics[n].Owned() :: false;
      assert m == InitialSeen(old(client.View()));
      ok := client.Call();
      if !ok {
        return Failed, o;
      }
      var flow := EnsureNoNewSecondIngressCreated(instance.value.entries, m);
      if flow != Continue {
        return flow.outcome, o;
      }
      flow, m := VisitEntries(base, instance.value.entries, m);
      if flow != Continue {
        return flow.outcome, o;
      }
      outcome, o := FinishPass(instance.value, m, cloud);
    }
  }
}
