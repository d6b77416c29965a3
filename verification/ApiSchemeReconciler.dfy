/** The APIScheme controller in the code's own form, proved to do what ApiScheme says. */
module ApiSchemeReconciler {
  import opened Basics
  import CloudClients
  import opened ConditionHistory
  import opened ApiScheme

  method SliceEquals(left: seq<string>, right: seq<string>) returns (equal: bool)
    ensures equal <==> left == right
  {
    if |left| != |right| {
      return false;
    }
    for i := 0 to |left|
      invariant left[..i] == right[..i]
    {
      if left[i] != right[i] {
        return false;
      }
    }
    return true;
  }

  /** The controller together with the API server and cloud it talks to. */
  class Reconciler {
    var cr: Option<Scheme>
    var services: map<string, Service>
    var zones: seq<Zone>
    const platform: Option<string>
    var clientKnown: bool
    var lbs: nat
    var faults: seq<bool>
    /** The calls made to the cloud so far. */
    var calls: seq<CloudCall>

    function View(): World
      reads this
    {
      World(cr, services, zones, platform, clientKnown, lbs, faults)
    }

    /** From a state with the calls `before` this is where the result `r` leads. */
    ghost predicate Did(before: seq<CloudCall>, outcome: Outcome, r: Result)
      reads this
    {
      View() == r.w && outcome == r.outcome && calls == before + r.calls
    }

    constructor (w: World)
      ensures View() == w && calls == []
    {
      cr, services, zones, platform := w.cr, w.services, w.zones, w.platform;
      clientKnown, lbs, faults, calls := w.clientKnown, w.lbs, w.faults, [];
    }

    method Call() returns (ok: bool)
      modifies this
      ensures calls == old(calls)
      ensures ok == !old(View()).Fails() && View() == old(View()).Next()
    {
      ok := !CallFails(faults);
      faults := LaterCalls(faults);
    }

    method UpdateCr(changed: Scheme) returns (ok: bool)
      modifies this
      ensures calls == old(calls)
      ensures ok == UpdateCrOk(old(View())) && View() == AfterUpdateCr(old(View()), changed)
    {
      ok := Call();
      ok := ok && cr.Some?;
      if ok {
        cr := if changed.deleting && changed.finalizers == [] then None
              else Some(changed.(conditions := cr.value.conditions, state := cr.value.state));
      }
    }

    method UpdateService(name: string, svc: Service) returns (ok: bool)
      modifies this
      ensures calls == old(calls)
      ensures ok == ServiceWriteOk(old(View()), name) && View() == AfterUpdateService(old(View()), name, svc)
    {
      ok := Call();
      ok := ok && name in services;
      if ok {
        services := if svc.deleting && svc.finalizers == [] then services - {name} else services[name := svc];
      }
    }

    method DeleteService(name: string)
      modifies this
      ensures calls == old(calls)
      ensures View() == AfterDeleteService(old(View()), name)
    {
      var ok := Call();
      if ok && name in services {
        services := if services[name].finalizers == [] then services - {name}
                    else services[name := services[name].(deleting := true)];
      }
    }

    method SetApiSchemeStatus(crObject: Scheme, reason: string, message: string, ctype: ConditionType, now: int)
      modifies this
      ensures calls == old(calls)
      ensures View() == SetStatus(old(View()), crObject, reason, message, ctype, now)
    {
      var told := crObject.(conditions := Set(crObject.conditions, Condition(ctype, True, reason, message, now),
          ReasonOrMessageChanged()));
      told := told.(state := Some(ctype));
      var ok := Call();
      if ok && cr.Some? {
        cr := Some(cr.value.(conditions := told.conditions, state := told.state));
      }
    }

    method FinalizeScheme(instance: Scheme, cloud: Cloud, now: int) returns (outcome: Outcome)
      modifies this
      ensures Did(old(calls), outcome, Finalize(old(View()), instance, cloud, now))
    {
      if DNS_FINALIZER in instance.finalizers {
        var ok := Call();
        if !ok {
          return Failed;
        }
        if instance.dnsName in services {
          calls := calls + [DeleteCall(instance.dnsName, cloud.reply.CloudOk?)];
          zones := DeleteRecord(zones, instance.dnsName, services[instance.dnsName].lb, View().IsAws(), cloud);
          if cloud.reply.Crash? {
            return Panicked;
          }
          if cloud.reply.NotReady? {
            SetApiSchemeStatus(instance, COULD_NOT, LB_NOT_READY, Error, now);
            return Requeue;
          }
          if !cloud.reply.CloudOk? {
            SetApiSchemeStatus(instance, COULD_NOT, "Failed to delete the DNS record", Error, now);
            return Failed;
          }
        }
        var changed := instance.(finalizers := Without(instance.finalizers, DNS_FINALIZER));
        ok := UpdateCr(changed);
        return if ok then Requeue else Failed;
      }
      return Done;
    }

    method EnsureAnnotation(name: string, svc: Service, key: string, value: string) returns (ok: bool, svc': Service)
      modifies this
      ensures calls == old(calls)
      ensures Annotation(View(), svc', ok) == Annotate(old(View()), name, svc, key, value)
    {
      ok, svc' := true, svc;
      if key !in svc.annotations || svc.annotations[key] != value {
        svc' := svc.(annotations := svc.annotations[key := value]);
        ok := UpdateService(name, svc');
      }
    }

    method HandleDnsAnswer(instance: Scheme, reply: CloudReply, now: int) returns (outcome: Outcome)
      modifies this
      ensures Did(old(calls), outcome, EnsureDns(old(View()), instance, reply, now))
    {
      calls := calls + [EnsureCall(instance.dnsName, cr)];
      match reply
      case CloudOk =>
        SetApiSchemeStatus(instance, SUCCESS, CREATED, Ready, now);
        return Done;
      case DnsUpdate(text) =>
        SetApiSchemeStatus(instance, COULD_NOT, "Couldn't ensure the admin API endpoint: DNS Update Error " + text,
            Error, now);
        return Failed;
      case RuleNotFound =>
        SetApiSchemeStatus(instance, COULD_NOT, "Forwarding rule was deleted on cloud provider", Error, now);
        DeleteService(instance.dnsName);
        return Requeue;
      case NotReady =>
        if Find(instance.conditions, Ready).None? {
          SetApiSchemeStatus(instance, COULD_NOT, LB_NOT_READY, Error, now);
        } else {
          SetApiSchemeStatus(instance, COULD_NOT, "Load balancer was deleted", Error, now);
          DeleteService(instance.dnsName);
        }
        return Requeue;
      case OtherError => return Failed;
      case Crash => return Panicked;
    }

    method EnsureAdminApi(instance: Scheme, cloud: Cloud, now: int) returns (outcome: Outcome)
      modifies this
      ensures Did(old(calls), outcome, EnsureService(old(View()), instance, cloud, now))
    {
      hide EnsureDns, EnsureRecord, NewService;
      var name := instance.dnsName;
      var ok := Call();
      if !ok {
        return Failed;
      }
      if name !in services {
        ok := Call();
        if !ok {
          return Failed;
        }
        services, lbs := services[name := NewService(instance, lbs)], lbs + 1;
        return Requeue;
      }
      var found := services[name];
      var same := SliceEquals(found.ranges, instance.cidrs);
      if !same {
        found := found.(ranges := instance.cidrs);
        ok := UpdateService(name, found);
        return if ok then Requeue else Failed;
      }
      if found.policy != LOCAL {
        found := found.(policy := LOCAL);
        ok := UpdateService(name, found);
        return if ok then Requeue else Failed;
      }
      ok, found := EnsureAnnotation(name, found, IDLE_KEY, IDLE_VALUE);
      if !ok {
        return Failed;
      }
      ok, found := EnsureAnnotation(name, found, TAG_KEY, TAG_VALUE);
      if !ok {
        return Failed;
      }
      zones := EnsureRecord(zones, name, found.lb, cloud);
      outcome := HandleDnsAnswer(instance, cloud.reply, now);
    }

    method ReconcileOnce(cloud: Cloud, now: int) returns (outcome: Outcome)
      modifies this
      ensures Did(old(calls), outcome, Reconcile(old(View()), cloud, now))
    {
      var ok := Call();
      if !ok {
        return Failed;
      }
      if cr.None? || !cr.value.enabled {
        return Done;
      }
      var instance := cr.value;
      if !clientKnown {
        ok := Call();
        if !ok {
          SetApiSchemeStatus(instance, COULD_NOT, "Couldn't create a Cloud Client", Error, now);
          return Failed;
        }
        if platform.None? {
          return Panicked;
        }
        clientKnown, faults := CloudClients.BuildFor(platform.value, cloud.usable, faults);
        if !clientKnown {
          return Panicked;
        }
      }
      if instance.deleting {
        outcome := FinalizeScheme(instance, cloud, now);
        return;
      }
      if DNS_FINALIZER !in instance.finalizers {
        instance := instance.(finalizers := instance.finalizers + [DNS_FINALIZER]);
        ok := UpdateCr(instance);
        if !ok {
          return Failed;
        }
      }
      outcome := EnsureAdminApi(instance, cloud, now);
    }
  }
}
