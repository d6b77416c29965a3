/** What passes of the APIScheme controller reach and keep, alone and over whole runs. */
module ApiSchemeTheorems {
  import opened Basics
  import opened ConditionHistory
  import opened ApiScheme
  import CloudClients

  // --- The status follows the history ---

  /** The state is the last condition's type, and Ready is reported with its own reason only. */
  ghost predicate HistoryAgrees(cr: Scheme) {
    && cr.state == (if cr.conditions == [] then None else Some(Last(cr.conditions).value.ctype))
    && forall i :: 0 <= i < |cr.conditions| ==>
         cr.conditions[i].status == True && (cr.conditions[i].ctype == Ready <==> cr.conditions[i].reason == SUCCESS)
  }

  ghost predicate HistoryKept(w: World, w': World) {
    w.cr.Some? && w'.cr.Some? && HistoryAgrees(w.cr.value) ==>
      HistoryAgrees(w'.cr.value) && w.cr.value.conditions <= w'.cr.value.conditions
  }

  lemma SetStatusKeepsHistory(w: World, cr: Scheme, reason: string, message: string, ctype: ConditionType, now: int)
    requires w.cr.Some? ==> cr.conditions == w.cr.value.conditions
    requires ctype == Ready <==> reason == SUCCESS
    ensures HistoryKept(w, SetStatus(w, cr, reason, message, ctype, now))
    ensures SetStatus(w, cr, reason, message, ctype, now).cr.Some? <==> w.cr.Some?
  {
  }

  /** Every pass, whatever fails, keeps the agreement, and the stored history only grows. */
  lemma PassKeepsHistory(w: World, cloud: Cloud, now: int)
    ensures HistoryKept(w, Reconcile(w, cloud, now).w)
  {
    hide SetStatus, Finalize, EnsureService, Last, Connect;
    if !w.Fails() && w.cr.Some? && w.cr.value.enabled {
      var cr, connection := w.cr.value, Connect(w.Next(), cloud.usable);
      var w1 := connection.w;
      ConnectEffect(w.Next(), cloud.usable);
      SetStatusKeepsHistory(w1, cr, COULD_NOT, "Couldn't create a Cloud Client", Error, now);
      if connection.state == Connected {
        if cr.deleting {
          FinalizeKeepsHistory(w1, cr, cloud, now);
        } else if DNS_FINALIZER in cr.finalizers {
          EnsureServiceKeepsHistory(w1, cr, cloud, now);
        } else if UpdateCrOk(w1) {
          var cr' := cr.(finalizers := cr.finalizers + [DNS_FINALIZER]);
          EnsureServiceKeepsHistory(AfterUpdateCr(w1, cr'), cr', cloud, now);
        }
      }
    }
  }

  /** Making the client writes nothing. */
  lemma ConnectEffect(w: World, usable: bool)
    ensures var r := Connect(w, usable);
            && r.w == w.(faults := r.w.faults, clientKnown := r.w.clientKnown)
            && (r.state == Connected <==> r.w.clientKnown)
  {
  }

  /** The stored status is as it was. */
  predicate SameStatus(w: World, w': World) {
    w.cr.Some? && w'.cr.Some? ==>
      w'.cr.value.conditions == w.cr.value.conditions && w'.cr.value.state == w.cr.value.state
  }

  lemma SameStatusKeeps(w: World, w1: World, w2: World)
    requires w1.cr == w.cr && (HistoryKept(w1, w2) || SameStatus(w1, w2))
    ensures HistoryKept(w, w2)
  {
  }

  lemma DropKeepsStatus(w: World, cr: Scheme)
    ensures SameStatus(w, DropFinalizer(w, cr).w)
  {
  }

  /** The world after DeleteAdminAPIDNS, as `Finalize` calls it. */
  function Deleted(w: World, name: string, cloud: Cloud): World
    requires name in w.services
  {
    w.Next().(zones := DeleteRecord(w.zones, name, w.services[name].lb, w.IsAws(), cloud))
  }

  lemma FinalizeKeepsHistory(w: World, cr: Scheme, cloud: Cloud, now: int)
    requires w.cr == Some(cr)
    ensures HistoryKept(w, Finalize(w, cr, cloud, now).w)
  {
    var r := Finalize(w, cr, cloud, now).w;
    if DNS_FINALIZER !in cr.finalizers || w.Fails() {
      SameStatusKeeps(w, w, r);
    } else {
      var w1 := if cr.dnsName in w.services then Deleted(w, cr.dnsName, cloud) else w.Next();
      if cr.dnsName !in w.services || cloud.reply.CloudOk? {
        DropKeepsStatus(w1, cr);
      } else if !cloud.reply.Crash? {
        var message := if cloud.reply.NotReady? then LB_NOT_READY else "Failed to delete the DNS record";
        SetStatusKeepsHistory(w1, cr, COULD_NOT, message, Error, now);
      }
      SameStatusKeeps(w, w1, r);
    }
  }

  lemma AnnotateKeepsRest(w: World, name: string, svc: Service, key: string, value: string)
    ensures var r := Annotate(w, name, svc, key, value); r.w.cr == w.cr && r.w.zones == w.zones && r.svc.lb == svc.lb
  {
  }

  /** The world after EnsureAdminAPIDNS. */
  function Ensured(w: World, zones: seq<Zone>, name: string, lb: nat, cloud: Cloud): World {
    w.(zones := EnsureRecord(zones, name, lb, cloud))
  }

  lemma EnsureServiceKeepsHistory(w: World, cr: Scheme, cloud: Cloud, now: int)
    requires w.cr == Some(cr)
    ensures HistoryKept(w, EnsureService(w, cr, cloud, now).w)
  {
    var name := cr.dnsName;
    var r := EnsureService(w, cr, cloud, now).w;
    if !w.Fails() && name in w.services && w.services[name].ranges == cr.cidrs && w.services[name].policy == LOCAL {
      var idle := Annotate(w.Next(), name, w.services[name], IDLE_KEY, IDLE_VALUE);
      var tag := Annotate(idle.w, name, idle.svc, TAG_KEY, TAG_VALUE);
      AnnotateKeepsRest(w.Next(), name, w.services[name], IDLE_KEY, IDLE_VALUE);
      AnnotateKeepsRest(idle.w, name, idle.svc, TAG_KEY, TAG_VALUE);
      if idle.ok && tag.ok {
        EnsureDnsKeepsHistory(Ensured(tag.w, w.zones, name, tag.svc.lb, cloud), cr, cloud.reply, now);
        SameStatusKeeps(w, Ensured(tag.w, w.zones, name, tag.svc.lb, cloud), r);
      } else {
        SameStatusKeeps(w, w, r);
      }
    } else {
      SameStatusKeeps(w, w, r);
    }
  }

  lemma EnsureDnsKeepsHistory(w: World, cr: Scheme, reply: CloudReply, now: int)
    requires w.cr == Some(cr)
    ensures HistoryKept(w, EnsureDns(w, cr, reply, now).w)
  {
    hide SetStatus, Find, HistoryAgrees;
    var report := ReportOf(cr, reply);
    SetStatusKeepsHistory(w, cr, report.reason, report.message, report.ctype, now);
  }

  // --- Bounded convergence to Ready ---

  /**
   * An enabled live object, a platform with a client, no failing call; the API keeps no deleting
   * Service without finalizers.
   */
  ghost predicate Quiet(w: World) {
    && w.cr.Some? && w.cr.value.enabled && !w.cr.value.deleting && w.faults == []
    && w.platform.Some? && CloudClients.Registered(w.platform.value)
    && forall n :: n in w.services ==> !(w.services[n].deleting && w.services[n].finalizers == [])
  }

  predicate Carries(svc: Service, key: string, value: string) {
    key in svc.annotations && svc.annotations[key] == value
  }

  /** The Service agrees with its specification in the four fields the controller watches. */
  predicate InSync(w: World) {
    && w.cr.Some? && w.cr.value.dnsName in w.services
    && var svc := w.services[w.cr.value.dnsName];
       && svc.ranges == w.cr.value.cidrs && svc.policy == LOCAL
       && Carries(svc, IDLE_KEY, IDLE_VALUE) && Carries(svc, TAG_KEY, TAG_VALUE)
  }

  /** How many passes Ready takes. */
  function Needed(w: World): (n: nat)
    requires w.cr.Some?
    ensures 1 <= n <= 3
  {
    if w.cr.value.dnsName !in w.services then 2
    else
      var svc := w.services[w.cr.value.dnsName];
      1 + (if svc.ranges == w.cr.value.cidrs then 0 else 1) + (if svc.policy == LOCAL then 0 else 1)
  }

  /** Every zone holds the record of the Service's own load balancer. */
  predicate AllPointAt(zones: seq<Zone>, name: string, lb: nat) {
    forall i :: 0 <= i < |zones| ==> name in zones[i] && zones[i][name] == lb
  }

  predicate Steady(w: World) {
    && InSync(w) && w.clientKnown && AllPointAt(w.zones, w.cr.value.dnsName, w.services[w.cr.value.dnsName].lb)
    && DNS_FINALIZER in w.cr.value.finalizers
    && w.cr.value.state == Some(Ready)
    && Last(w.cr.value.conditions).Some?
    && Key(Last(w.cr.value.conditions).value) == (True, SUCCESS, CREATED)
  }

  lemma PassDrawsNearer(w: World, reached: nat, now: int)
    requires Quiet(w)
    ensures var r := Reconcile(w, Cloud(true, CloudOk, reached), now);
            && Quiet(r.w)
            && if Needed(w) > 1 then r.outcome == Requeue && Needed(r.w) == Needed(w) - 1
               else r.outcome == Done && Steady(r.w) && Needed(r.w) == 1
  {
    var cr := w.cr.value;
    var cr' := if DNS_FINALIZER in cr.finalizers then cr else cr.(finalizers := cr.finalizers + [DNS_FINALIZER]);
    var w1 := w.(clientKnown := true, cr := Some(cr'));
    NoFaults(w);
    var cloud := Cloud(true, CloudOk, reached);
    assert Reconcile(w, cloud, now) == EnsureService(w1, cr', cloud, now);
    EnsureDrawsNearer(w1, cr', reached, now);
  }

  lemma NoFaults(w: World)
    requires Quiet(w)
    ensures Connect(w, true) == Connection(w.(clientKnown := true), Connected)
  {
    ConnectEffect(w, true);
    HasClientConnects(w, Cloud(true, CloudOk, 0));
  }

  lemma EnsureDrawsNearer(w: World, cr: Scheme, reached: nat, now: int)
    requires Quiet(w) && w.cr == Some(cr) && w.clientKnown && DNS_FINALIZER in cr.finalizers
    ensures var r := EnsureService(w, cr, Cloud(true, CloudOk, reached), now);
            && Quiet(r.w)
            && if Needed(w) > 1 then r.outcome == Requeue && Needed(r.w) == Needed(w) - 1
               else r.outcome == Done && Steady(r.w) && Needed(r.w) == 1
  {
    var name := cr.dnsName;
    if Needed(w) == 1 {
      AnnotateSucceeds(w, name, w.services[name], IDLE_KEY, IDLE_VALUE);
      var idle := Annotate(w, name, w.services[name], IDLE_KEY, IDLE_VALUE);
      AnnotateSucceeds(idle.w, name, idle.svc, TAG_KEY, TAG_VALUE);
      var tag := Annotate(idle.w, name, idle.svc, TAG_KEY, TAG_VALUE);
      var ready := Ensured(tag.w, w.zones, name, tag.svc.lb, Cloud(true, CloudOk, reached));
      assert EnsureService(w, cr, Cloud(true, CloudOk, reached), now) == EnsureDns(ready, cr, CloudOk, now);
      assert Carries(tag.svc, IDLE_KEY, IDLE_VALUE) && Carries(tag.svc, TAG_KEY, TAG_VALUE);
      SuccessIsSteady(ready, cr, now);
    }
  }

  lemma AnnotateSucceeds(w: World, name: string, svc: Service, key: string, value: string)
    requires w.faults == [] && name in w.services && w.services[name] == svc
    requires !(svc.deleting && svc.finalizers == [])
    ensures var r := Annotate(w, name, svc, key, value);
            && r.ok && r.svc == svc.(annotations := r.svc.annotations) && Carries(r.svc, key, value)
            && r.w == w.(services := w.services[name := r.svc])
            && forall k :: k != key && k in svc.annotations ==> Carries(r.svc, k, svc.annotations[k])
  {
    assert w.services == w.services[name := svc];
  }

  lemma SuccessIsSteady(w: World, cr: Scheme, now: int)
    requires Quiet(w) && w.cr == Some(cr) && InSync(w) && w.clientKnown
    requires DNS_FINALIZER in cr.finalizers && AllPointAt(w.zones, cr.dnsName, w.services[cr.dnsName].lb)
    ensures var r := EnsureDns(w, cr, CloudOk, now);
            Quiet(r.w) && r.outcome == Done && Steady(r.w) && Needed(r.w) == 1
  {
  }

  /** A steady state is a fixed point. */
  lemma SteadyStays(w: World, reached: nat, now: int)
    requires Quiet(w) && Steady(w)
    ensures Reconcile(w, Cloud(true, CloudOk, reached), now) == Result(w, Done, [EnsureCall(w.cr.value.dnsName, w.cr)])
  {
    var cr := w.cr.value;
    var name, lb := cr.dnsName, w.services[cr.dnsName].lb;
    assert forall i :: 0 <= i < |w.zones| ==> w.zones[i][name := lb] == w.zones[i];
    assert EnsureRecord(w.zones, name, lb, Cloud(true, CloudOk, reached)) == w.zones;
    NoFaults(w);
    assert Reported(cr, SUCCESS, CREATED, Ready, now) == cr;
  }

  /** The state before pass `j`, each pass with its own clock. */
  function StateAt(w: World, nows: seq<int>, j: nat): World
    requires j <= |nows|
  {
    if j == 0 then w else Reconcile(StateAt(w, nows, j - 1), Cloud(true, CloudOk, 0), nows[j - 1]).w
  }

  /**
   * From any Service state the object is Ready after exactly `Needed` passes, never more than three;
   * before that every pass requeues, and from then on no pass changes anything at all.
   */
  lemma {:induction false} ReadyWithinThree(w: World, nows: seq<int>, j: nat)
    requires Quiet(w) && j <= |nows|
    ensures var s := StateAt(w, nows, j);
            && Quiet(s)
            && if j < Needed(w)
               then Needed(s) == Needed(w) - j
                    && (j > 0 ==>
                          Reconcile(StateAt(w, nows, j - 1), Cloud(true, CloudOk, 0), nows[j - 1]).outcome == Requeue)
               else Steady(s) && s.cr.value.state == Some(Ready) && s == StateAt(w, nows, Needed(w))
  {
    if j > 0 {
      ReadyWithinThree(w, nows, j - 1);
      PassDrawsNearer(StateAt(w, nows, j - 1), 0, nows[j - 1]);
      if j > Needed(w) { SteadyStays(StateAt(w, nows, j - 1), 0, nows[j - 1]); }
    }
  }

  // --- The finalizer guards the DNS record ---

  predicate Holds(cr: Option<Scheme>) {
    cr.Some? && DNS_FINALIZER in cr.value.finalizers
  }

  /** Records exist only while the object carries the finalizer. */
  ghost predicate Guarded(w: World) {
    forall i, n :: 0 <= i < |w.zones| && n in w.zones[i] ==> Holds(w.cr)
  }

  /**
   * A record that deleting the object called `dns` leaves behind: it has another name, or
   * DeleteAdminAPIDNS is not called for lack of a Service, or on AWS it points at another load balancer.
   */
  predicate OutOfReach(w: World, dns: string, n: string, i: nat)
    requires i < |w.zones|
  {
    && n in w.zones[i]
    && (n != dns || dns !in w.services || (w.IsAws() && w.zones[i][dns] != w.services[dns].lb))
  }

  /** The object is being deleted while a record is out of reach. */
  ghost predicate OrphanRisk(w: World) {
    && w.cr.Some? && w.cr.value.enabled && w.cr.value.deleting
    && exists i, n :: 0 <= i < |w.zones| && n in w.zones[i] && OutOfReach(w, w.cr.value.dnsName, n, i)
  }

  /** No zone has more names than before, other than this one. */
  ghost predicate NoNewNames(a: seq<Zone>, b: seq<Zone>, extra: set<string>) {
    |a| == |b| && forall i :: 0 <= i < |a| ==> b[i].Keys <= a[i].Keys + extra
  }

  lemma EnsureNames(zones: seq<Zone>, name: string, lb: nat, cloud: Cloud)
    ensures NoNewNames(zones, EnsureRecord(zones, name, lb, cloud), {name})
  {
  }

  lemma DeleteNames(zones: seq<Zone>, name: string, lb: nat, exact: bool, cloud: Cloud)
    ensures var after := DeleteRecord(zones, name, lb, exact, cloud);
            && NoNewNames(zones, after, {})
            && forall i, n :: 0 <= i < |zones| ==>
                 (n in after[i] <==>
                    n in zones[i] && !(n == name && cloud.GoesThrough(i) && (exact ==> zones[i][name] == lb)))
  {
  }

  lemma SetStatusKeepsGuard(w: World, cr: Scheme, reason: string, message: string, ctype: ConditionType, now: int)
    ensures var w' := SetStatus(w, cr, reason, message, ctype, now);
            && w'.zones == w.zones && w'.services == w.services && w'.platform == w.platform
            && (w'.cr.Some? <==> w.cr.Some?)
            && (w.cr.Some? ==> && w'.cr.value.enabled == w.cr.value.enabled
                               && w'.cr.value.finalizers == w.cr.value.finalizers
                               && w'.cr.value.dnsName == w.cr.value.dnsName
                               && w'.cr.value.deleting == w.cr.value.deleting)
  {
  }

  lemma EnsureServiceKeepsGuard(w: World, cr: Scheme, cloud: Cloud, now: int)
    requires w.cr == Some(cr)
    ensures var w' := EnsureService(w, cr, cloud, now).w;
            && NoNewNames(w.zones, w'.zones, {cr.dnsName})
            && w'.cr.Some? && w'.cr.value.finalizers == cr.finalizers
            && w'.cr.value.dnsName == cr.dnsName && w'.cr.value.deleting == cr.deleting
  {
    hide Annotate, EnsureDns;
    var name := cr.dnsName;
    if !w.Fails() && name in w.services && w.services[name].ranges == cr.cidrs && w.services[name].policy == LOCAL {
      var idle := Annotate(w.Next(), name, w.services[name], IDLE_KEY, IDLE_VALUE);
      var tag := Annotate(idle.w, name, idle.svc, TAG_KEY, TAG_VALUE);
      AnnotateKeepsRest(w.Next(), name, w.services[name], IDLE_KEY, IDLE_VALUE);
      AnnotateKeepsRest(idle.w, name, idle.svc, TAG_KEY, TAG_VALUE);
      EnsureNames(w.zones, name, tag.svc.lb, cloud);
      EnsureDnsKeepsGuard(Ensured(tag.w, w.zones, name, tag.svc.lb, cloud), cr, cloud.reply, now);
    }
  }

  lemma EnsureDnsKeepsGuard(w: World, cr: Scheme, reply: CloudReply, now: int)
    requires w.cr == Some(cr)
    ensures var w' := EnsureDns(w, cr, reply, now).w;
            && w'.zones == w.zones && w'.cr.Some?
            && w'.cr.value.finalizers == cr.finalizers && w'.cr.value.dnsName == cr.dnsName
            && w'.cr.value.deleting == cr.deleting
  {
    hide SetStatus, Find, ReportOf;
    var report := ReportOf(cr, reply);
    SetStatusKeepsGuard(w, cr, report.reason, report.message, report.ctype, now);
  }

  lemma FinalizerAdded(w: World, cr: Scheme, cr': Scheme)
    requires w.cr == Some(cr) && !cr.deleting && cr' == cr.(finalizers := cr'.finalizers)
    ensures AfterUpdateCr(w, cr') == if UpdateCrOk(w) then w.Next().(cr := Some(cr')) else w.Next()
  {
  }

  lemma NothingToFinalize(w: World, cr: Scheme, cloud: Cloud, now: int)
    requires DNS_FINALIZER !in cr.finalizers
    ensures Finalize(w, cr, cloud, now) == NoCall(w, Done)
  {
  }

  lemma DropEffect(w: World, cr: Scheme)
    requires w.cr == Some(cr) && DNS_FINALIZER in cr.finalizers
    ensures DropFinalizer(w, cr).calls == []
    ensures var w' := DropFinalizer(w, cr).w;
            && w'.zones == w.zones
            && (w'.cr.Some? ==> w'.cr.value.dnsName == cr.dnsName)
            && (if w.Fails() then w'.cr == w.cr else !Holds(w'.cr))
  {
  }

  lemma FinalizeKeepsGuard(w: World, cr: Scheme, cloud: Cloud, now: int)
    requires w.cr == Some(cr) && DNS_FINALIZER in cr.finalizers && cr.deleting
    ensures var w' := Finalize(w, cr, cloud, now).w;
            && NoNewNames(w.zones, w'.zones, {})
            && (w'.cr.Some? ==> w'.cr.value.dnsName == cr.dnsName)
            && (!Holds(w'.cr) ==>
                  forall i, n :: 0 <= i < |w.zones| ==> (n in w'.zones[i] <==> OutOfReach(w, cr.dnsName, n, i)))
            && (w.faults == [] && (cr.dnsName in w.services ==> cloud.reply.CloudOk?) ==> !Holds(w'.cr))
  {
    hide SetStatus, DropFinalizer, DeleteRecord;
    DropEffect(w.Next(), cr);
    if w.Fails() || cr.dnsName !in w.services {
      return;
    }
    var w1 := Deleted(w, cr.dnsName, cloud);
    DeleteNames(w.zones, cr.dnsName, w.services[cr.dnsName].lb, w.IsAws(), cloud);
    DropEffect(w1, cr);
    if !cloud.reply.CloudOk? {
      var message := if cloud.reply.NotReady? then LB_NOT_READY else "Failed to delete the DNS record";
      SetStatusKeepsGuard(w1, cr, COULD_NOT, message, Error, now);
    }
  }

  /** The client is there or can be made, for lack of failing calls. */
  predicate HasClient(w: World, cloud: Cloud) {
    w.clientKnown || (w.platform.Some? && CloudClients.Registered(w.platform.value) && cloud.usable)
  }

  lemma HasClientConnects(w: World, cloud: Cloud)
    ensures w.faults == [] ==>
              && Connect(w, cloud.usable).w.faults == []
              && (Connect(w, cloud.usable).state == Connected <==> HasClient(w, cloud))
  {
    if w.platform.Some? {
      var calls := CloudClients.BuildCalls(w.platform.value);
      CloudClients.ClientIff(w.platform.value, cloud.usable, []);
      CloudClients.MakeSucceedsIff([], calls);
      NoneFails(calls);
    }
  }

  /** DeleteAdminAPIDNS is not called, for lack of a Service, or answers with success. */
  predicate DeleteSucceeds(w: World, dns: string, cloud: Cloud) {
    dns in w.services ==> cloud.reply.CloudOk?
  }

  lemma SameClient(w: World, w': World, cloud: Cloud)
    requires w' == w.(faults := w'.faults)
    ensures HasClient(w, cloud) == HasClient(w', cloud)
  {
  }

  /** The name a record may be added for: that of a live object with the finalizer. */
  function Addable(cr: Option<Scheme>): set<string> {
    if Holds(cr) && !cr.value.deleting then {cr.value.dnsName} else {}
  }

  /** From `w` to `w'` the guard is kept unless a record is out of reach, and then lost if `clean`. */
  ghost predicate KeepsGuard(w: World, w': World, clean: bool) {
    && NoNewNames(w.zones, w'.zones, Addable(w'.cr))
    && (!OrphanRisk(w) ==> Guarded(w'))
    && (OrphanRisk(w) && clean ==> !Guarded(w'))
  }

  lemma FinalizeGuards(w: World, cr: Scheme, cloud: Cloud, now: int)
    requires Guarded(w) && w.cr == Some(cr) && cr.enabled && cr.deleting && DNS_FINALIZER in cr.finalizers
    ensures KeepsGuard(w, Finalize(w, cr, cloud, now).w, w.faults == [] && DeleteSucceeds(w, cr.dnsName, cloud))
  {
    hide Finalize;
    FinalizeKeepsGuard(w, cr, cloud, now);
  }

  lemma EnsureGuards(w: World, cr: Scheme, cloud: Cloud, now: int, clean: bool)
    requires Guarded(w) && w.cr == Some(cr) && !cr.deleting && DNS_FINALIZER in cr.finalizers
    ensures KeepsGuard(w, EnsureService(w, cr, cloud, now).w, clean)
  {
    hide EnsureService;
    EnsureServiceKeepsGuard(w, cr, cloud, now);
  }

  /** Only the status, the failures to come, the client or the finalizer of a live object change. */
  lemma SameGuard(w: World, w': World)
    requires w'.zones == w.zones && w'.services == w.services && w'.platform == w.platform
    requires w.cr.Some? ==>
               && w'.cr.Some? && w'.cr.value.dnsName == w.cr.value.dnsName && w'.cr.value.enabled == w.cr.value.enabled
               && w'.cr.value.deleting == w.cr.value.deleting && (Holds(w.cr) ==> Holds(w'.cr))
    requires w'.cr.Some? ==> w.cr.Some?
    ensures Guarded(w) ==> Guarded(w')
    ensures OrphanRisk(w') <==> OrphanRisk(w)
    ensures forall names :: NoNewNames(w.zones, w'.zones, names)
  {
    assert w.cr.Some? ==>
      forall i, n :: 0 <= i < |w.zones| ==>
        (OutOfReach(w', w.cr.value.dnsName, n, i) <==> OutOfReach(w, w.cr.value.dnsName, n, i));
  }

  lemma NoRisk(w: World)
    requires Guarded(w)
    ensures OrphanRisk(w) ==> w.cr.Some? && w.cr.value.enabled && w.cr.value.deleting && Holds(w.cr)
  {
  }

  /**
   * One pass, whatever fails: names are added only under a live object that carries the finalizer, and
   * the guard is kept unless the object is being deleted while a record is out of reach: it has another
   * name than the object has now, its Service is gone, or on AWS it points at another load balancer than
   * the Service's. There a pass without failures, which deletes successfully if there is a Service,
   * orphans the record.
   */
  lemma PassKeepsGuard(w: World, cloud: Cloud, now: int)
    requires Guarded(w)
    ensures var w' := Reconcile(w, cloud, now).w;
            && NoNewNames(w.zones, w'.zones, Addable(w'.cr))
            && (!OrphanRisk(w) ==> Guarded(w'))
            && (OrphanRisk(w) && w.faults == [] && HasClient(w, cloud) ==>
                  DeleteSucceeds(w, w.cr.value.dnsName, cloud) ==> !Guarded(w'))
  {
    hide SetStatus, Finalize, EnsureService, AfterUpdateCr, Connect, HasClient, Guarded, OrphanRisk, NoNewNames;
    SameGuard(w, w.Next());
    NoRisk(w);
    if !w.Fails() && w.cr.Some? && w.cr.value.enabled {
      var cr, connection := w.cr.value, Connect(w.Next(), cloud.usable);
      var w1 := connection.w;
      ConnectEffect(w.Next(), cloud.usable);
      HasClientConnects(w.Next(), cloud);
      SameClient(w, w.Next(), cloud);
      SameGuard(w, w1);
      if connection.state == Unreadable {
        SetStatusKeepsGuard(w1, cr, COULD_NOT, "Couldn't create a Cloud Client", Error, now);
        SameGuard(w1, SetStatus(w1, cr, COULD_NOT, "Couldn't create a Cloud Client", Error, now));
      } else if connection.state == Connected {
        if cr.deleting {
          if DNS_FINALIZER in cr.finalizers {
            FinalizeGuards(w1, cr, cloud, now);
          } else {
            NothingToFinalize(w1, cr, cloud, now);
          }
        } else if DNS_FINALIZER in cr.finalizers {
          EnsureGuards(w1, cr, cloud, now, false);
        } else {
          var cr' := cr.(finalizers := cr.finalizers + [DNS_FINALIZER]);
          FinalizerAdded(w1, cr, cr');
          var w2 := AfterUpdateCr(w1, cr');
          SameGuard(w1, w2);
          if UpdateCrOk(w1) { EnsureGuards(w2, cr', cloud, now, false); }
        }
      }
    }
  }

  // --- The calls to the cloud and the finalizer ---

  predicate CarriesLive(cr: Option<Scheme>) {
    Holds(cr) && !cr.value.deleting
  }

  /** EnsureAdminAPIDNS is called only while the API server holds a live object with the finalizer. */
  ghost predicate CalledUnderFinalizer(calls: seq<CloudCall>) {
    forall c :: c in calls && c.EnsureCall? ==> CarriesLive(c.held) && c.name == c.held.value.dnsName
  }

  /** The one way to lose the finalizer: the object is being deleted, and its record is gone or unknowable. */
  predicate MayDrop(w: World, cloud: Cloud) {
    w.cr.Some? && w.cr.value.deleting && DeleteSucceeds(w, w.cr.value.dnsName, cloud)
  }

  lemma EnsureServiceCalls(w: World, cr: Scheme, cloud: Cloud, now: int)
    requires w.cr == Some(cr)
    ensures var calls := EnsureService(w, cr, cloud, now).calls;
            calls == [] || calls == [EnsureCall(cr.dnsName, w.cr)]
  {
    hide SetStatus, ReportOf, AfterUpdateService, AfterDeleteService;
    var name := cr.dnsName;
    if !w.Fails() && name in w.services && w.services[name].ranges == cr.cidrs && w.services[name].policy == LOCAL {
      var idle := Annotate(w.Next(), name, w.services[name], IDLE_KEY, IDLE_VALUE);
      AnnotateKeepsRest(w.Next(), name, w.services[name], IDLE_KEY, IDLE_VALUE);
      AnnotateKeepsRest(idle.w, name, idle.svc, TAG_KEY, TAG_VALUE);
    }
  }

  lemma FinalizeCalls(w: World, cr: Scheme, cloud: Cloud, now: int)
    requires w.cr == Some(cr) && DNS_FINALIZER in cr.finalizers
    ensures var r := Finalize(w, cr, cloud, now);
            && r.calls == (if w.Fails() || cr.dnsName !in w.services then []
                           else [DeleteCall(cr.dnsName, cloud.reply.CloudOk?)])
            && (!Holds(r.w.cr) ==> !w.Fails() && (cr.dnsName in w.services ==> cloud.reply.CloudOk?))
            && (w.faults == [] && (cr.dnsName in w.services ==> cloud.reply.CloudOk?) ==> !Holds(r.w.cr))
  {
    hide SetStatus, DropFinalizer, DeleteRecord;
    DropEffect(w.Next(), cr);
    if w.Fails() || cr.dnsName !in w.services {
      return;
    }
    var w1 := Deleted(w, cr.dnsName, cloud);
    DropEffect(w1, cr);
    if !cloud.reply.CloudOk? {
      var message := if cloud.reply.NotReady? then LB_NOT_READY else "Failed to delete the DNS record";
      SetStatusKeepsGuard(w1, cr, COULD_NOT, message, Error, now);
    }
  }

  /**
   * One pass from any state, whatever fails. It calls EnsureAdminAPIDNS only under a live object with
   * the finalizer, and the server loses the finalizer only if the object is being deleted and either
   * the Service is absent or this pass's DeleteAdminAPIDNS answered with success. Without failing calls
   * and with a client it is lost exactly then.
   */
  lemma FinalizerGoesLast(w: World, cloud: Cloud, now: int)
    ensures var r := Reconcile(w, cloud, now);
            && CalledUnderFinalizer(r.calls)
            && (Holds(w.cr) && !Holds(r.w.cr) ==>
                  && MayDrop(w, cloud)
                  && (w.cr.value.dnsName !in w.services || r.calls == [DeleteCall(w.cr.value.dnsName, true)]))
            && (w.faults == [] && Holds(w.cr) ==>
                  (!Holds(r.w.cr) <==> w.cr.value.enabled && HasClient(w, cloud) && MayDrop(w, cloud)))
  {
    hide SetStatus, Finalize, EnsureService, AfterUpdateCr, Connect, HasClient;
    if !w.Fails() && w.cr.Some? && w.cr.value.enabled {
      var cr, connection := w.cr.value, Connect(w.Next(), cloud.usable);
      var w1 := connection.w;
      ConnectEffect(w.Next(), cloud.usable);
      HasClientConnects(w.Next(), cloud);
      SameClient(w, w.Next(), cloud);
      SetStatusKeepsGuard(w1, cr, COULD_NOT, "Couldn't create a Cloud Client", Error, now);
      if connection.state == Connected {
        if cr.deleting {
          if DNS_FINALIZER in cr.finalizers {
            FinalizeCalls(w1, cr, cloud, now);
          } else {
            NothingToFinalize(w1, cr, cloud, now);
          }
        } else if DNS_FINALIZER in cr.finalizers {
          EnsureServiceCalls(w1, cr, cloud, now);
          EnsureServiceKeepsGuard(w1, cr, cloud, now);
        } else {
          var cr' := cr.(finalizers := cr.finalizers + [DNS_FINALIZER]);
          FinalizerAdded(w1, cr, cr');
          if UpdateCrOk(w1) { EnsureServiceCalls(AfterUpdateCr(w1, cr'), cr', cloud, now); }
        }
      }
    }
  }

  /** A pass, or anyone else editing the object and the Services without touching the finalizer. */
  datatype Event =
    | Pass(cloud: Cloud, now: int, faults: seq<bool>)
    | Edit(cr: Option<Scheme>, services: map<string, Service>)

  function Step(w: World, e: Event): World {
    match e
    case Pass(cloud, now, faults) => Reconcile(w.(faults := faults), cloud, now).w
    case Edit(cr, services) => w.(cr := cr, services := services)
  }

  function Run(w: World, events: seq<Event>): World
    decreases events
  {
    if events == [] then w else Run(Step(w, events[0]), events[1..])
  }

  /** Edits leave the finalizer alone, and no pass starts in the risky state. */
  ghost predicate Careful(w: World, events: seq<Event>)
    decreases events
  {
    events != [] ==>
      && match events[0] {
           case Pass(_, _, _) => !OrphanRisk(w)
           case Edit(cr, _) => Holds(w.cr) ==> Holds(cr)
         }
      && Careful(Step(w, events[0]), events[1..])
  }

  lemma EditKeepsGuard(w: World, cr: Option<Scheme>, services: map<string, Service>)
    requires Guarded(w) && (Holds(w.cr) ==> Holds(cr))
    ensures Guarded(w.(cr := cr, services := services))
  {
  }

  /**
   * Over any such run no record ever outlives the finalizer that guards it: whatever calls fail, and
   * however others edit the object, its DNS name included, and the Services.
   */
  lemma {:induction false} GuardHoldsOverRuns(w: World, events: seq<Event>)
    requires Guarded(w) && Careful(w, events)
    ensures Guarded(Run(w, events))
    decreases events
  {
    hide Reconcile, Guarded, OrphanRisk, Holds;
    if events != [] {
      match events[0] {
        case Pass(cloud, now, faults) =>
          SameGuard(w, w.(faults := faults));
          PassKeepsGuard(w.(faults := faults), cloud, now);
        case Edit(cr, services) => EditKeepsGuard(w, cr, services);
      }
      GuardHoldsOverRuns(Step(w, events[0]), events[1..]);
    }
  }

  /** Every call to the cloud that the passes of a run make, in order. */
  function RunCalls(w: World, events: seq<Event>): seq<CloudCall>
    decreases events
  {
    if events == [] then []
    else
      (match events[0]
       case Pass(cloud, now, faults) => Reconcile(w.(faults := faults), cloud, now).calls
       case Edit(_, _) => [])
      + RunCalls(Step(w, events[0]), events[1..])
  }

  /** Nobody but the operator takes the finalizer off. */
  ghost predicate FinalizerRespected(w: World, events: seq<Event>)
    decreases events
  {
    events != [] ==>
      && (events[0].Edit? && Holds(w.cr) ==> Holds(events[0].cr))
      && FinalizerRespected(Step(w, events[0]), events[1..])
  }

  /** Step `i` is a pass that may drop the finalizer and does. */
  ghost predicate DropsAt(w: World, events: seq<Event>, i: nat)
    requires i < |events|
  {
    && events[i].Pass?
    && Holds(Run(w, events[..i]).cr) && !Holds(Run(w, events[..i + 1]).cr)
    && MayDrop(Run(w, events[..i]), events[i].cloud)
  }

  /**
   * From any state and over any run: every EnsureAdminAPIDNS call is made under the finalizer, and if
   * the finalizer is lost, a pass dropped it from a deleting object after a successful
   * DeleteAdminAPIDNS or with the Service absent.
   */
  lemma {:induction false} FinalizerGoesLastOverRuns(w: World, events: seq<Event>)
    requires FinalizerRespected(w, events)
    ensures CalledUnderFinalizer(RunCalls(w, events))
    ensures Holds(w.cr) && !Holds(Run(w, events).cr) ==> exists i :: 0 <= i < |events| && DropsAt(w, events, i)
    decreases events
  {
    hide Reconcile, Holds, CarriesLive;
    if events != [] {
      var e, rest := events[0], events[1..];
      var next := Step(w, e);
      if e.Pass? { FinalizerGoesLast(w.(faults := e.faults), e.cloud, e.now); }
      FinalizerGoesLastOverRuns(next, rest);
      if Holds(w.cr) && !Holds(Run(w, events).cr) {
        RunFrom(w, events, 0);
        if Holds(next.cr) {
          var i :| 0 <= i < |rest| && DropsAt(next, rest, i);
          RunFrom(w, events, i);
          RunFrom(w, events, i + 1);
          assert DropsAt(w, events, i + 1);
        } else {
          assert DropsAt(w, events, 0);
        }
      }
    }
  }

  lemma RunFrom(w: World, events: seq<Event>, i: nat)
    requires i < |events|
    ensures Run(w, events[..0]) == w
    ensures Run(w, events[..i + 1]) == Run(Step(w, events[0]), events[1..][..i])
  {
    assert events[..i + 1][1..] == events[1..][..i];
  }

  /**
   * The risky state is reached by ordinary steps: from a guarded state someone removes the Service,
   * someone deletes the object, and one pass without any failure leaves the record behind for good.
   */
  lemma OrphanedRecord(dns: string, svc: Service, platform: Option<string>, lbs: nat, cloud: Cloud, now: int)
    ensures var cr := Scheme(true, dns, [], [DNS_FINALIZER], false, [], None);
            var zones := [map[dns := svc.lb]];
            var w := World(Some(cr), map[dns := svc], zones, platform, true, lbs, []);
            var events := [Edit(Some(cr), map[]), Edit(Some(cr.(deleting := true)), map[]), Pass(cloud, now, [])];
            && Guarded(w) && FinalizerRespected(w, events)
            && Run(w, events) == World(None, map[], zones, platform, true, lbs, [])
  {
    var cr := Scheme(true, dns, [], [DNS_FINALIZER], false, [], None);
    var zones := [map[dns := svc.lb]];
    var w := World(Some(cr), map[dns := svc], zones, platform, true, lbs, []);
    var pass := Pass(cloud, now, []);
    var deleted := Edit(Some(cr.(deleting := true)), map[]);
    var events := [Edit(Some(cr), map[]), deleted, pass];
    var risky := World(Some(cr.(deleting := true)), map[], zones, platform, true, lbs, []);
    assert Without([DNS_FINALIZER], DNS_FINALIZER) == [];
    assert Step(risky, pass) == World(None, map[], zones, platform, true, lbs, []);
    assert events[1..] == [deleted, pass] && [deleted, pass][1..] == [pass] && [pass][1..] == [];
    assert Run(risky, [pass]) == Run(Step(risky, pass), []);
    assert Run(w.(services := map[]), [deleted, pass]) == Run(risky, [pass]);
    assert FinalizerRespected(risky, [pass]);
    assert FinalizerRespected(w.(services := map[]), [deleted, pass]);
  }

  // --- A record of an earlier load balancer ---

  /** The load balancer of a Ready object is gone: the pass deletes the Service to have another made. */
  lemma LoadBalancerLost(w: World, cr: Scheme, svc: Service, now: int)
    requires w.cr == Some(cr) && cr.enabled && !cr.deleting && DNS_FINALIZER in cr.finalizers
    requires Find(cr.conditions, Ready).Some?
    requires w.clientKnown && w.faults == [] && w.services == map[cr.dnsName := svc]
    requires svc == NewService(cr, svc.lb)
    ensures Reconcile(w, Cloud(true, NotReady, 0), now).w
            == w.(cr := Some(Reported(cr, COULD_NOT, "Load balancer was deleted", Error, now)), services := map[])
  {
    var cloud, name := Cloud(true, NotReady, 0), cr.dnsName;
    assert EnsureRecord(w.zones, name, svc.lb, cloud) == w.zones;
    assert EnsureService(w, cr, cloud, now) == EnsureDns(w, cr, NotReady, now);
    assert map[name := svc] - {name} == map[];
  }

  lemma ServiceRecreated(w: World, cr: Scheme, cloud: Cloud, now: int)
    requires w.cr == Some(cr) && cr.enabled && !cr.deleting && DNS_FINALIZER in cr.finalizers
    requires w.clientKnown && w.faults == [] && w.services == map[]
    ensures Reconcile(w, cloud, now).w == w.(services := map[cr.dnsName := NewService(cr, w.lbs)], lbs := w.lbs + 1)
  {
  }

  lemma WrongRecordKept(w: World, cr: Scheme, svc: Service, now: int)
    requires w.cr == Some(cr) && cr.enabled && cr.deleting && cr.finalizers == [DNS_FINALIZER]
    requires w.clientKnown && w.faults == [] && w.services == map[cr.dnsName := svc] && w.IsAws()
    requires forall i :: 0 <= i < |w.zones| ==> !(cr.dnsName in w.zones[i] && w.zones[i][cr.dnsName] == svc.lb)
    ensures Reconcile(w, Cloud(true, CloudOk, 0), now).w == w.(cr := None)
  {
    var cloud := Cloud(true, CloudOk, 0);
    assert DeleteRecord(w.zones, cr.dnsName, svc.lb, true, cloud) == w.zones;
    assert Without([DNS_FINALIZER], DNS_FINALIZER) == [];
  }

  /**
   * On AWS a record is orphaned although its Service is there: from a Ready state the load balancer is
   * lost, the next pass recreates the Service, and before a pass has moved the record the object is
   * deleted. The delete names the new load balancer, answers with success, and both zones keep the old
   * record without an object.
   */
  lemma StaleRecord(dns: string, now: int)
    ensures var ready := Condition(Ready, True, SUCCESS, CREATED, now);
            var cr := Scheme(true, dns, [], [DNS_FINALIZER], false, [ready], Some(Ready));
            var told := Reported(cr, COULD_NOT, "Load balancer was deleted", Error, now);
            var zones, services := [map[dns := 0], map[dns := 0]], map[dns := NewService(cr, 1)];
            var w := World(Some(cr), map[dns := NewService(cr, 0)], zones, Some(CloudClients.AWS), true, 1, []);
            var events := [Pass(Cloud(true, NotReady, 0), now, []), Pass(Cloud(true, CloudOk, 0), now, []),
                           Edit(Some(told.(deleting := true)), services), Pass(Cloud(true, CloudOk, 0), now, [])];
            && Quiet(w) && Steady(w) && Guarded(w) && FinalizerRespected(w, events)
            && Run(w, events) == w.(cr := None, services := services, lbs := 2)
  {
    hide Reconcile, Reported;
    var ready := Condition(Ready, True, SUCCESS, CREATED, now);
    var cr := Scheme(true, dns, [], [DNS_FINALIZER], false, [ready], Some(Ready));
    var told := Reported(cr, COULD_NOT, "Load balancer was deleted", Error, now);
    var zones, services := [map[dns := 0], map[dns := 0]], map[dns := NewService(cr, 1)];
    var w := World(Some(cr), map[dns := NewService(cr, 0)], zones, Some(CloudClients.AWS), true, 1, []);
    var lost, made := Pass(Cloud(true, NotReady, 0), now, []), Pass(Cloud(true, CloudOk, 0), now, []);
    var deleted := Edit(Some(told.(deleting := true)), services);
    OnlyStatusReported(cr, now);
    var w1 := w.(cr := Some(told), services := map[]);
    var w2 := w.(cr := Some(told), services := services, lbs := 2);
    var w3 := w2.(cr := Some(told.(deleting := true)));
    LoadBalancerLost(w, cr, NewService(cr, 0), now);
    ServiceRecreated(w1, told, made.cloud, now);
    WrongRecordKept(w3, told.(deleting := true), NewService(cr, 1), now);
    assert Step(w, lost) == w1 && Step(w1, made) == w2 && Step(w2, deleted) == w3;
    RunOfFour(w, [lost, made, deleted, made]);
    RespectedByFour(w, [lost, made, deleted, made]);
  }

  lemma OnlyStatusReported(cr: Scheme, now: int)
    ensures var told := Reported(cr, COULD_NOT, "Load balancer was deleted", Error, now);
            told == cr.(conditions := told.conditions, state := told.state)
  {
  }

  lemma RunOfFour(w: World, events: seq<Event>)
    requires |events| == 4
    ensures Run(w, events) == Step(Step(Step(Step(w, events[0]), events[1]), events[2]), events[3])
  {
    hide Step;
    var w1 := Step(w, events[0]);
    var w2 := Step(w1, events[1]);
    var w3 := Step(w2, events[2]);
    var last := events[1..][1..][1..];
    assert last == [events[3]];
    assert Run(w, events) == Run(w1, events[1..]) == Run(w2, events[1..][1..]) == Run(w3, last);
    assert Run(w3, last) == Run(Step(w3, events[3]), last[1..]);
  }

  lemma RespectedByFour(w: World, events: seq<Event>)
    requires |events| == 4 && events[0].Pass? && events[1].Pass? && events[2].Edit? && events[3].Pass?
    requires Holds(events[2].cr)
    ensures FinalizerRespected(w, events)
  {
    hide Step, Holds;
    var w1 := Step(w, events[0]);
    var w2 := Step(w1, events[1]);
    var w3 := Step(w2, events[2]);
    assert FinalizerRespected(Step(w3, events[3]), events[1..][1..][1..][1..]);
    assert FinalizerRespected(w3, events[1..][1..][1..]);
    assert FinalizerRespected(w2, events[1..][1..]);
    assert FinalizerRespected(w1, events[1..]);
  }

  // --- A record of an earlier name ---

  /**
   * Renaming orphans a record although every record points where it should: the object is renamed, and
   * before its deletion nothing has removed the record of the old name. The Services of both names are
   * there, and the one pass, without any failure, deletes only at the new name.
   */
  lemma RenamedRecord(was: string, name: string, platform: Option<string>, now: int)
    requires was != name
    ensures var cr := Scheme(true, was, [], [DNS_FINALIZER], false, [], None);
            var renamed := cr.(dnsName := name, deleting := true);
            var services := map[was := NewService(cr, 0), name := NewService(cr, 1)];
            var w := World(Some(cr), services, [map[was := 0], map[was := 0]], platform, true, 2, []);
            var events := [Edit(Some(renamed), services), Pass(Cloud(true, CloudOk, 0), now, [])];
            && Guarded(w) && FinalizerRespected(w, events)
            && Run(w, events) == w.(cr := None)
  {
    var cr := Scheme(true, was, [], [DNS_FINALIZER], false, [], None);
    var renamed := cr.(dnsName := name, deleting := true);
    var services := map[was := NewService(cr, 0), name := NewService(cr, 1)];
    var w := World(Some(cr), services, [map[was := 0], map[was := 0]], platform, true, 2, []);
    var edit, pass := Edit(Some(renamed), services), Pass(Cloud(true, CloudOk, 0), now, []);
    var risky := w.(cr := Some(renamed));
    assert DeleteRecord(w.zones, name, 1, w.IsAws(), pass.cloud) == w.zones;
    assert Without([DNS_FINALIZER], DNS_FINALIZER) == [];
    assert Step(risky, pass) == w.(cr := None);
    assert [edit, pass][1..] == [pass] && [pass][1..] == [];
    assert Run(risky, [pass]) == Run(Step(risky, pass), []);
    assert FinalizerRespected(risky, [pass]);
  }

  // --- Panics ---

  /** The client has to be made, the platform is read, and no client can be made of it. */
  predicate ClientPanics(w: World, usable: bool) {
    && !w.clientKnown && !w.Fails()
    && (|| w.platform.None?
        || !CloudClients.Registered(w.platform.value)
        || !usable
        || !AllSucceed(w.Next().faults, CloudClients.BuildCalls(w.platform.value)))
  }

  lemma NoClientIff(w: World, usable: bool)
    ensures Connect(w, usable).state == NoClient <==> ClientPanics(w, usable)
  {
    if w.platform.Some? { CloudClients.ClientIff(w.platform.value, usable, w.Next().faults); }
  }

  lemma CallsCrash(w: World, cr: Scheme, cloud: Cloud, now: int)
    ensures var r := Finalize(w, cr, cloud, now); r.outcome == Panicked <==> r.calls != [] && cloud.reply.Crash?
    ensures var r := EnsureService(w, cr, cloud, now); r.outcome == Panicked <==> r.calls != [] && cloud.reply.Crash?
  {
    hide SetStatus, ReportOf, AfterUpdateService, AfterDeleteService, AfterUpdateCr, Annotate;
    hide EnsureRecord, DeleteRecord;
  }

  /**
   * A pass panics exactly if it reads an enabled object and then no cloud client can be made, or the
   * DNS call it makes panics.
   */
  lemma SchemePanicsIff(w: World, cloud: Cloud, now: int)
    ensures var r := Reconcile(w, cloud, now);
            r.outcome == Panicked
            <==> && !w.Fails() && w.cr.Some? && w.cr.value.enabled
                 && (ClientPanics(w.Next(), cloud.usable) || (r.calls != [] && cloud.reply.Crash?))
  {
    hide SetStatus, Finalize, EnsureService, AfterUpdateCr, Connect, ClientPanics;
    if !w.Fails() && w.cr.Some? && w.cr.value.enabled {
      var cr, connection := w.cr.value, Connect(w.Next(), cloud.usable);
      NoClientIff(w.Next(), cloud.usable);
      CallsCrash(connection.w, cr, cloud, now);
      var cr' := cr.(finalizers := cr.finalizers + [DNS_FINALIZER]);
      CallsCrash(AfterUpdateCr(connection.w, cr'), cr', cloud, now);
    }
  }
}
