/** What a pass of the APIScheme controller makes of each answer of the cloud, and of the Service. */
module ApiSchemeAnswers {
  import opened Basics
  import opened ConditionHistory
  import opened ApiScheme
  import opened ApiSchemeTheorems
  import CloudClients

  predicate Calm(w: World) {
    true !in w.faults
  }

  /** The status with a report: the type is the state, and the report is kept unless it repeats the last one. */
  predicate Told(a: Scheme, b: Scheme, ctype: ConditionType, reason: string, message: string, now: int) {
    && b.state == Some(ctype)
    && var repeated := a.conditions != [] &&
                       var last := a.conditions[|a.conditions| - 1];
                       last.status == True && last.reason == reason && last.message == message;
       b.conditions == if repeated then a.conditions
                       else a.conditions + [Condition(ctype, True, reason, message, now)]
  }

  predicate Untold(a: Scheme, b: Scheme) {
    b.conditions == a.conditions && b.state == a.state
  }

  /** It was Ready at some time. */
  ghost predicate WasReady(cr: Scheme) {
    exists i :: 0 <= i < |cr.conditions| && cr.conditions[i].ctype == Ready
  }

  // --- The answer to EnsureAdminAPIDNS ---

  /** The report for each answer; only a failing call leaves the status as it was instead. */
  ghost predicate StatusAfter(a: Scheme, b: Scheme, reply: CloudReply, now: int, calm: bool) {
    match reply
    case CloudOk =>
      Told(a, b, Ready, "Success", "Admin API Endpoint created", now) || (!calm && Untold(a, b))
    case DnsUpdate(text) =>
      var message := "Couldn't ensure the admin API endpoint: DNS Update Error " + text;
      Told(a, b, Error, "Couldn't reconcile", message, now) || (!calm && Untold(a, b))
    case RuleNotFound =>
      || Told(a, b, Error, "Couldn't reconcile", "Forwarding rule was deleted on cloud provider", now)
      || (!calm && Untold(a, b))
    case NotReady =>
      var message := if WasReady(a) then "Load balancer was deleted" else "Load balancer isn't ready";
      Told(a, b, Error, "Couldn't reconcile", message, now) || (!calm && Untold(a, b))
    case OtherError => Untold(a, b)
    case Crash => Untold(a, b)
  }

  /** The Service is gone or marked, and was not marked before. */
  predicate Deleted(w: World, w': World, name: string) {
    name in w.services && (name !in w'.services || (w'.services[name].deleting && !w.services[name].deleting))
  }

  /** The load balancer is lost, so the Service is deleted to have another one made. */
  ghost predicate Lost(cr: Scheme, reply: CloudReply) {
    reply.RuleNotFound? || (reply.NotReady? && WasReady(cr))
  }

  ghost predicate Answered(w: World, r: Result, reply: CloudReply, now: int) {
    && w.cr.Some? && r.w.cr.Some? && w.cr.value.dnsName in w.services
    && r.outcome == (match reply
                     case CloudOk => Done
                     case DnsUpdate(_) => Failed
                     case RuleNotFound => Requeue
                     case NotReady => Requeue
                     case OtherError => Failed
                     case Crash => Panicked)
    && StatusAfter(w.cr.value, r.w.cr.value, reply, now, Calm(w))
    && (Deleted(w, r.w, w.cr.value.dnsName) ==> Lost(w.cr.value, reply))
    && (Lost(w.cr.value, reply) && Calm(w) ==>
          Deleted(w, r.w, w.cr.value.dnsName) || w.services[w.cr.value.dnsName].deleting)
  }

  lemma FoundReady(cr: Scheme)
    ensures Find(cr.conditions, Ready).Some? <==> WasReady(cr)
  {
  }

  lemma StatusMeans(w: World, cr: Scheme, reason: string, message: string, ctype: ConditionType, now: int)
    requires w.cr == Some(cr)
    ensures var w' := SetStatus(w, cr, reason, message, ctype, now);
            && w'.cr.Some? && w'.services == w.services && w'.faults == LaterCalls(w.faults)
            && (if w.Fails() then Untold(cr, w'.cr.value) else Told(cr, w'.cr.value, ctype, reason, message, now))
  {
  }

  lemma CalmLater(w: World)
    ensures Calm(w) ==> !w.Fails() && Calm(w.Next())
  {
  }

  lemma ReportMeans(a: Scheme, b: Scheme, reply: CloudReply, now: int, calm: bool)
    requires !reply.OtherError? && !reply.Crash?
    requires var report := ReportOf(a, reply);
             Told(a, b, report.ctype, report.reason, report.message, now) || (!calm && Untold(a, b))
    ensures StatusAfter(a, b, reply, now, calm)
  {
    FoundReady(a);
    hide Told, Untold, Find, WasReady;
  }

  lemma NothingReported(a: Scheme, reply: CloudReply, now: int, calm: bool)
    requires reply.OtherError? || reply.Crash?
    ensures StatusAfter(a, a, reply, now, calm)
  {
  }

  lemma EnsureDnsMeans(w: World, cr: Scheme, reply: CloudReply, now: int)
    requires w.cr == Some(cr) && cr.dnsName in w.services
    ensures Answered(w, EnsureDns(w, cr, reply, now), reply, now)
  {
    hide SetStatus, Find, Told, Calm, WasReady, ReportOf, StatusAfter;
    FoundReady(cr);
    CalmLater(w);
    var report := ReportOf(cr, reply);
    StatusMeans(w, cr, report.reason, report.message, report.ctype, now);
    var told := SetStatus(w, cr, report.reason, report.message, report.ctype, now);
    if !reply.OtherError? && !reply.Crash? {
      ReportMeans(cr, told.cr.value, reply, now, Calm(w));
    } else {
      NothingReported(cr, reply, now, Calm(w));
    }
    CalmLater(SetStatus(w, cr, report.reason, report.message, report.ctype, now));
  }

  /** Nothing that matters here changes before the call: status, and whether the Service is there and marked. */
  predicate SameBefore(w: World, w': World) {
    && w.cr.Some? && w'.cr.Some? && w'.cr.value.dnsName == w.cr.value.dnsName
    && w'.cr.value.conditions == w.cr.value.conditions && w'.cr.value.state == w.cr.value.state
    && (Calm(w) ==> Calm(w'))
    && var name := w.cr.value.dnsName;
       && (name in w.services <==> name in w'.services)
       && (name in w.services ==> w'.services[name].deleting == w.services[name].deleting)
  }

  lemma AnsweredFrom(w: World, w': World, r: Result, reply: CloudReply, now: int)
    requires SameBefore(w, w') && Answered(w', r, reply, now)
    ensures Answered(w, r, reply, now)
  {
    StatusFrom(w.cr.value, w'.cr.value, r.w.cr.value, reply, now, Calm(w), Calm(w'));
    hide StatusAfter;
  }

  lemma StatusFrom(a: Scheme, a': Scheme, b: Scheme, reply: CloudReply, now: int, calm: bool, calm': bool)
    requires a'.conditions == a.conditions && a'.state == a.state && (calm ==> calm')
    requires StatusAfter(a', b, reply, now, calm')
    ensures StatusAfter(a, b, reply, now, calm)
  {
    assert WasReady(a) <==> WasReady(a');
    hide WasReady;
  }

  /** The API keeps no deleting Service without finalizers. */
  predicate Kept(services: map<string, Service>) {
    forall n :: n in services ==> !(services[n].deleting && services[n].finalizers == [])
  }

  lemma AnnotateSame(w: World, name: string, svc: Service, key: string, value: string)
    requires w.cr.Some? && w.cr.value.dnsName == name && name in w.services
    requires svc.deleting == w.services[name].deleting && !(svc.deleting && svc.finalizers == [])
    ensures var r := Annotate(w, name, svc, key, value);
            && SameBefore(w, r.w) && r.w.cr == w.cr && name in r.w.services
            && r.svc.deleting == svc.deleting && r.svc.finalizers == svc.finalizers
  {
    CalmLater(w);
  }

  lemma EnsureServiceAnswers(w: World, cr: Scheme, cloud: Cloud, now: int)
    requires w.cr == Some(cr) && Kept(w.services)
    ensures var r := EnsureService(w, cr, cloud, now);
            if r.calls == [] then w.cr.Some? && r.w.cr == w.cr else Answered(w, r, cloud.reply, now)
  {
    hide EnsureDns, Answered, EnsureRecord, SameBefore, Calm;
    var name := cr.dnsName;
    if !w.Fails() && name in w.services && w.services[name].ranges == cr.cidrs && w.services[name].policy == LOCAL {
      var svc := w.services[name];
      var idle := Annotate(w.Next(), name, svc, IDLE_KEY, IDLE_VALUE);
      AnnotateSame(w.Next(), name, svc, IDLE_KEY, IDLE_VALUE);
      NextSame(w);
      if idle.ok {
        SvcKept(w.Next(), name, svc, IDLE_KEY, IDLE_VALUE);
        var tag := Annotate(idle.w, name, idle.svc, TAG_KEY, TAG_VALUE);
        AnnotateSame(idle.w, name, idle.svc, TAG_KEY, TAG_VALUE);
        if tag.ok {
          var last := tag.w.(zones := EnsureRecord(w.zones, name, svc.lb, cloud));
          SameChain(w, w.Next(), idle.w, tag.w, last);
          EnsureDnsMeans(last, cr, cloud.reply, now);
          EnsureDnsCalls(last, cr, cloud.reply, now);
          AnsweredFrom(w, last, EnsureDns(last, cr, cloud.reply, now), cloud.reply, now);
        }
      }
    }
  }

  lemma NextSame(w: World)
    requires w.cr.Some?
    ensures SameBefore(w, w.Next())
  {
    CalmLater(w);
  }

  lemma SvcKept(w: World, name: string, svc: Service, key: string, value: string)
    requires name in w.services && w.services[name] == svc && !(svc.deleting && svc.finalizers == [])
    ensures var r := Annotate(w, name, svc, key, value); r.ok ==> name in r.w.services && r.w.services[name] == r.svc
  {
  }

  lemma SameChain(a: World, b: World, c: World, d: World, e: World)
    requires SameBefore(a, b) && SameBefore(b, c) && SameBefore(c, d) && e == d.(zones := e.zones)
    ensures SameBefore(a, e)
  {
  }

  lemma EnsureDnsCalls(w: World, cr: Scheme, reply: CloudReply, now: int)
    ensures EnsureDns(w, cr, reply, now).calls != []
  {
  }

  // --- In a pass ---

  lemma ConnectSame(w: World, usable: bool)
    requires w.cr.Some?
    ensures SameBefore(w, Connect(w, usable).w) && Connect(w, usable).w.cr == w.cr
    ensures Connect(w, usable).w.services == w.services
  {
    CalmLater(w);
    if !w.clientKnown && !w.Fails() && w.platform.Some? {
      MakeCalm(w.Next().faults, CloudClients.BuildCalls(w.platform.value));
    }
  }

  lemma {:induction false} MakeCalm(faults: seq<bool>, k: nat)
    ensures true !in faults ==> true !in CloudClients.Make(faults, k).faults
    decreases k
  {
    if k > 0 && !CallFails(faults) { MakeCalm(LaterCalls(faults), k - 1); }
  }

  lemma FinalizerSame(w: World, cr: Scheme, cr': Scheme)
    requires w.cr == Some(cr) && !cr.deleting && cr' == cr.(finalizers := cr'.finalizers) && UpdateCrOk(w)
    ensures SameBefore(w, AfterUpdateCr(w, cr')) && AfterUpdateCr(w, cr').cr == Some(cr')
    ensures AfterUpdateCr(w, cr').services == w.services
  {
    CalmLater(w);
  }

  lemma SameTwice(a: World, b: World, c: World)
    requires SameBefore(a, b) && SameBefore(b, c)
    ensures SameBefore(a, c)
  {
  }

  /**
   * A pass that calls EnsureAdminAPIDNS, from any state and whatever fails: how it ends, what it reports,
   * and whether it deletes the Service, for each answer of the cloud.
   */
  lemma AnswersMean(w: World, cloud: Cloud, now: int)
    requires Kept(w.services)
    ensures var r := Reconcile(w, cloud, now);
            r.calls != [] && r.calls[0].EnsureCall? ==> Answered(w, r, cloud.reply, now)
  {
    hide SetStatus, Finalize, EnsureService, AfterUpdateCr, Connect, Answered, SameBefore;
    if !w.Fails() && w.cr.Some? && w.cr.value.enabled {
      var cr, connection := w.cr.value, Connect(w.Next(), cloud.usable);
      var w1 := connection.w;
      NextSame(w);
      ConnectSame(w.Next(), cloud.usable);
      SameTwice(w, w.Next(), w1);
      if connection.state == Connected {
        if cr.deleting {
          FinalizeHasNoEnsure(w1, cr, cloud, now);
        } else {
          var cr' := cr.(finalizers := cr.finalizers + [DNS_FINALIZER]);
          if DNS_FINALIZER in cr.finalizers {
            AnswersFrom(w, w1, cr, cloud, now);
          } else if UpdateCrOk(w1) {
            FinalizerSame(w1, cr, cr');
            SameTwice(w, w1, AfterUpdateCr(w1, cr'));
            AnswersFrom(w, AfterUpdateCr(w1, cr'), cr', cloud, now);
          }
        }
      }
    }
  }

  lemma AnswersFrom(w: World, w': World, cr: Scheme, cloud: Cloud, now: int)
    requires w'.cr == Some(cr) && Kept(w'.services) && SameBefore(w, w')
    ensures var r := EnsureService(w', cr, cloud, now); r.calls != [] ==> Answered(w, r, cloud.reply, now)
  {
    hide EnsureService, Answered, SameBefore;
    EnsureServiceAnswers(w', cr, cloud, now);
    var r := EnsureService(w', cr, cloud, now);
    if r.calls != [] { AnsweredFrom(w, w', r, cloud.reply, now); }
  }

  lemma FinalizeHasNoEnsure(w: World, cr: Scheme, cloud: Cloud, now: int)
    ensures var r := Finalize(w, cr, cloud, now); r.calls != [] ==> r.calls[0].DeleteCall?
  {
    hide SetStatus, AfterUpdateCr, DeleteRecord;
  }

  // --- Ready is earned ---

  /** A Ready state or condition that was not there before. */
  ghost predicate NewReady(a: Scheme, b: Scheme) {
    || (b.state == Some(Ready) && a.state != Some(Ready))
    || exists i :: 0 <= i < |b.conditions| && b.conditions[i].ctype == Ready && b.conditions[i] !in a.conditions
  }

  lemma OnlySuccessIsReady(a: Scheme, b: Scheme, reply: CloudReply, now: int, calm: bool)
    requires StatusAfter(a, b, reply, now, calm)
    ensures NewReady(a, b) ==> reply.CloudOk?
    ensures reply.CloudOk? && calm ==> b.state == Some(Ready) && WasReadyLast(b)
  {
    if b.conditions != a.conditions && b.conditions != [] {
      var last := b.conditions[|b.conditions| - 1];
      assert b.conditions == a.conditions + [last];
      forall i | 0 <= i < |b.conditions| && b.conditions[i] !in a.conditions ensures b.conditions[i] == last {
      }
    }
  }

  predicate WasReadyLast(cr: Scheme) {
    cr.conditions != [] &&
    var last := cr.conditions[|cr.conditions| - 1];
    last.status == True && last.reason == "Success" && last.message == "Admin API Endpoint created"
  }

  lemma ErrorIsNotReady(w: World, cr: Scheme, reason: string, message: string, now: int)
    requires w.cr == Some(cr)
    ensures var w' := SetStatus(w, cr, reason, message, Error, now);
            w'.cr.Some? && !NewReady(cr, w'.cr.value)
  {
    var w' := SetStatus(w, cr, reason, message, Error, now);
    StatusMeans(w, cr, reason, message, Error, now);
    assert forall c :: c in w'.cr.value.conditions ==> c in cr.conditions || c.ctype == Error;
  }

  lemma UntoldIsNotReady(a: Scheme, b: Scheme)
    requires Untold(a, b)
    ensures !NewReady(a, b)
  {
  }

  lemma FinalizeIsNotReady(w: World, cr: Scheme, cloud: Cloud, now: int)
    requires w.cr == Some(cr)
    ensures var w' := Finalize(w, cr, cloud, now).w; w'.cr.Some? ==> !NewReady(cr, w'.cr.value)
  {
    hide SetStatus, NewReady, DeleteRecord;
    UntoldIsNotReady(cr, cr);
    if !w.Fails() && cr.dnsName in w.services {
      var zones := DeleteRecord(w.zones, cr.dnsName, w.services[cr.dnsName].lb, w.IsAws(), cloud);
      var message := if cloud.reply.NotReady? then LB_NOT_READY else "Failed to delete the DNS record";
      ErrorIsNotReady(w.Next().(zones := zones), cr, COULD_NOT, message, now);
    }
    forall b: Scheme | Untold(cr, b) ensures !NewReady(cr, b) {
      UntoldIsNotReady(cr, b);
    }
  }

  lemma EnsureServiceStatus(w: World, cr: Scheme, cloud: Cloud, now: int)
    requires w.cr == Some(cr)
    ensures var r := EnsureService(w, cr, cloud, now);
            && r.w.cr.Some?
            && (if r.calls == [] then r.w.cr.value == cr
                else r.calls[0].EnsureCall? && StatusAfter(cr, r.w.cr.value, cloud.reply, now, false))
  {
    hide EnsureDns, EnsureRecord, StatusAfter;
    var name := cr.dnsName;
    if !w.Fails() && name in w.services && w.services[name].ranges == cr.cidrs && w.services[name].policy == LOCAL {
      var svc := w.services[name];
      var idle := Annotate(w.Next(), name, svc, IDLE_KEY, IDLE_VALUE);
      var tag := Annotate(idle.w, name, idle.svc, TAG_KEY, TAG_VALUE);
      AnnotateKeepsRest(w.Next(), name, svc, IDLE_KEY, IDLE_VALUE);
      AnnotateKeepsRest(idle.w, name, idle.svc, TAG_KEY, TAG_VALUE);
      DnsStatus(tag.w.(zones := EnsureRecord(w.zones, name, svc.lb, cloud)), cr, cloud.reply, now);
    }
  }

  lemma DnsStatus(w: World, cr: Scheme, reply: CloudReply, now: int)
    requires w.cr == Some(cr)
    ensures var r := EnsureDns(w, cr, reply, now);
            && r.w.cr.Some? && StatusAfter(cr, r.w.cr.value, reply, now, false)
            && r.calls == [EnsureCall(cr.dnsName, w.cr)]
  {
    hide SetStatus, Find, Told, WasReady, ReportOf, StatusAfter;
    var report := ReportOf(cr, reply);
    StatusMeans(w, cr, report.reason, report.message, report.ctype, now);
    if !reply.OtherError? && !reply.Crash? {
      ReportMeans(cr, SetStatus(w, cr, report.reason, report.message, report.ctype, now).cr.value, reply, now, false);
    } else {
      NothingReported(cr, reply, now, false);
    }
  }

  /**
   * From any state and under any failures: a pass stores a Ready state or condition it did not find only
   * if it called EnsureAdminAPIDNS and the answer was success.
   */
  lemma ReadyIsEarned(w: World, cloud: Cloud, now: int)
    requires w.cr.Some?
    ensures var r := Reconcile(w, cloud, now);
            r.w.cr.Some? && NewReady(w.cr.value, r.w.cr.value) ==>
              r.calls != [] && r.calls[0].EnsureCall? && cloud.reply.CloudOk?
  {
    hide SetStatus, Finalize, EnsureService, AfterUpdateCr, Connect, NewReady, StatusAfter;
    var cr := w.cr.value;
    UntoldIsNotReady(cr, cr);
    if !w.Fails() && cr.enabled {
      var connection := Connect(w.Next(), cloud.usable);
      var w1 := connection.w;
      ConnectEffect(w.Next(), cloud.usable);
      ErrorIsNotReady(w1, cr, COULD_NOT, "Couldn't create a Cloud Client", now);
      FinalizeIsNotReady(w1, cr, cloud, now);
      if connection.state == Connected && !cr.deleting {
        var cr' := cr.(finalizers := cr.finalizers + [DNS_FINALIZER]);
        FinalizerAdded(w1, cr, cr');
        UntoldIsNotReady(cr, cr');
        if DNS_FINALIZER in cr.finalizers {
          EarnedBy(w1, cr, cr, cloud, now);
        } else if UpdateCrOk(w1) {
          EarnedBy(AfterUpdateCr(w1, cr'), cr, cr', cloud, now);
        }
      }
    }
  }

  lemma EarnedBy(w: World, was: Scheme, cr: Scheme, cloud: Cloud, now: int)
    requires w.cr == Some(cr) && Untold(was, cr)
    ensures var r := EnsureService(w, cr, cloud, now);
            && r.w.cr.Some?
            && (NewReady(was, r.w.cr.value) ==> r.calls != [] && r.calls[0].EnsureCall? && cloud.reply.CloudOk?)
  {
    hide EnsureService;
    EnsureServiceStatus(w, cr, cloud, now);
    var r := EnsureService(w, cr, cloud, now);
    if r.calls == [] {
      UntoldIsNotReady(was, r.w.cr.value);
    } else {
      OnlySuccessIsReady(cr, r.w.cr.value, cloud.reply, now, false);
      assert NewReady(was, r.w.cr.value) <==> NewReady(cr, r.w.cr.value);
    }
  }

  /** The converse: success without a failing call makes the object Ready. */
  lemma SuccessMakesReady(w: World, cloud: Cloud, now: int)
    requires Kept(w.services) && Calm(w) && cloud.reply.CloudOk?
    ensures var r := Reconcile(w, cloud, now);
            r.calls != [] && r.calls[0].EnsureCall? ==>
              r.w.cr.Some? && r.w.cr.value.state == Some(Ready) && WasReadyLast(r.w.cr.value)
  {
    hide Reconcile, StatusAfter;
    AnswersMean(w, cloud, now);
    var r := Reconcile(w, cloud, now);
    if r.calls != [] && r.calls[0].EnsureCall? {
      OnlySuccessIsReady(w.cr.value, r.w.cr.value, cloud.reply, now, true);
    }
  }

  // --- The answer to DeleteAdminAPIDNS ---

  ghost predicate DeleteAnswered(w: World, r: Result, reply: CloudReply, now: int) {
    && w.cr.Some?
    && (match reply
        case CloudOk => r.outcome in {Requeue, Failed} && (Calm(w) ==> r.outcome == Requeue)
        case NotReady => r.outcome == Requeue
        case Crash => r.outcome == Panicked
        case _ => r.outcome == Failed)
    && r.w.services == w.services
    && (!reply.CloudOk? ==>
          && r.w.cr.Some?
          && var message := if reply.NotReady? then "Load balancer isn't ready" else "Failed to delete the DNS record";
             || (!reply.Crash? && Told(w.cr.value, r.w.cr.value, Error, "Couldn't reconcile", message, now))
             || ((reply.Crash? || !Calm(w)) && Untold(w.cr.value, r.w.cr.value)))
  }

  lemma FinalizeAnswers(w: World, cr: Scheme, cloud: Cloud, now: int)
    requires w.cr == Some(cr)
    ensures var r := Finalize(w, cr, cloud, now); r.calls != [] ==> DeleteAnswered(w, r, cloud.reply, now)
  {
    hide SetStatus, Told, DeleteRecord, Calm;
    CalmLater(w);
    CalmLater(w.Next());
    if DNS_FINALIZER in cr.finalizers && !w.Fails() && cr.dnsName in w.services {
      var zones := DeleteRecord(w.zones, cr.dnsName, w.services[cr.dnsName].lb, w.IsAws(), cloud);
      var w1 := w.Next().(zones := zones);
      SameCalm(w.Next(), w1);
      CalmLater(w1);
      var message := if cloud.reply.NotReady? then LB_NOT_READY else "Failed to delete the DNS record";
      StatusMeans(w1, cr, COULD_NOT, message, Error, now);
    }
  }

  lemma SameCalm(w: World, w': World)
    requires w'.faults == w.faults
    ensures Calm(w') == Calm(w)
  {
  }

  /** A pass that calls DeleteAdminAPIDNS: how it ends and what it reports for each answer of the cloud. */
  lemma DeleteAnswersMean(w: World, cloud: Cloud, now: int)
    ensures var r := Reconcile(w, cloud, now);
            r.calls != [] && r.calls[0].DeleteCall? ==> DeleteAnswered(w, r, cloud.reply, now)
  {
    hide SetStatus, Finalize, EnsureService, AfterUpdateCr, Connect, Told, Calm;
    if !w.Fails() && w.cr.Some? && w.cr.value.enabled {
      var cr, connection := w.cr.value, Connect(w.Next(), cloud.usable);
      var w1 := connection.w;
      ConnectEffect(w.Next(), cloud.usable);
      NextSame(w);
      ConnectSame(w.Next(), cloud.usable);
      FinalizeAnswers(w1, cr, cloud, now);
      var cr' := cr.(finalizers := cr.finalizers + [DNS_FINALIZER]);
      if !cr.deleting {
        FinalizerAdded(w1, cr, cr');
        EnsureServiceStatus(w1, cr, cloud, now);
        if UpdateCrOk(w1) { EnsureServiceStatus(AfterUpdateCr(w1, cr'), cr', cloud, now); }
      }
    }
  }

  // --- The Service ---

  /** The two annotations of the load balancer. */
  function Annotations(): map<string, string> {
    map["service.beta.kubernetes.io/aws-load-balancer-connection-idle-timeout" := "1800",
        "service.beta.kubernetes.io/aws-load-balancer-additional-resource-tags" := "red-hat-managed=true"]
  }

  /** A missing Service is created, the first field that differs is set, and only then the cloud is called. */
  ghost predicate Repaired(cr: Scheme, lb: nat, before: map<string, Service>, r: Result, reply: CloudReply) {
    var name := cr.dnsName;
    if name !in before then
      && r.outcome == Requeue && r.calls == []
      && r.w.services == before[name := Service(cr.cidrs, "Local", Annotations(), [], false, lb)]
    else
      var svc := before[name];
      if svc.ranges != cr.cidrs then
        r.outcome == Requeue && r.calls == [] && r.w.services == before[name := svc.(ranges := cr.cidrs)]
      else if svc.policy != "Local" then
        r.outcome == Requeue && r.calls == [] && r.w.services == before[name := svc.(policy := "Local")]
      else
        && (exists held :: r.calls == [EnsureCall(name, held)])
        && (!Lost(cr, reply) ==>
              r.w.services == before[name := svc.(annotations := svc.annotations + Annotations())])
  }

  /** A pass without failing calls repairs one field of the Service, or sets the annotations and calls the cloud. */
  lemma RepairsMean(w: World, cloud: Cloud, now: int)
    requires Quiet(w) && cloud.usable
    ensures Repaired(w.cr.value, w.lbs, w.services, Reconcile(w, cloud, now), cloud.reply)
  {
    var cr := w.cr.value;
    var cr' := if DNS_FINALIZER in cr.finalizers then cr else cr.(finalizers := cr.finalizers + [DNS_FINALIZER]);
    var w1 := w.(clientKnown := true, cr := Some(cr'));
    NoFaults(w);
    ServiceRepaired(w1, cr', cloud, now);
    assert Reconcile(w, cloud, now) == EnsureService(w1, cr', cloud, now) by {
      hide EnsureService, Connect;
    }
  }

  lemma ServiceRepaired(w: World, cr: Scheme, cloud: Cloud, now: int)
    requires Quiet(w) && w.cr == Some(cr)
    ensures Repaired(cr, w.lbs, w.services, EnsureService(w, cr, cloud, now), cloud.reply)
  {
    hide EnsureDns, Annotate, Annotations, EnsureRecord;
    var name := cr.dnsName;
    if name !in w.services {
      NewAnnotations();
    } else if w.services[name].ranges == cr.cidrs && w.services[name].policy == LOCAL {
      AnnotationsSet(w, cr, cloud, now);
    }
  }

  lemma NewAnnotations()
    ensures map[IDLE_KEY := IDLE_VALUE, TAG_KEY := TAG_VALUE] == Annotations()
  {
  }

  lemma AnnotationsSet(w: World, cr: Scheme, cloud: Cloud, now: int)
    requires Quiet(w) && w.cr == Some(cr) && cr.dnsName in w.services
    requires w.services[cr.dnsName].ranges == cr.cidrs && w.services[cr.dnsName].policy == LOCAL
    ensures var r, svc := EnsureService(w, cr, cloud, now), w.services[cr.dnsName];
            && (exists held :: r.calls == [EnsureCall(cr.dnsName, held)])
            && (!Lost(cr, cloud.reply) ==>
                  r.w.services == w.services[cr.dnsName := svc.(annotations := svc.annotations + Annotations())])
  {
    hide EnsureDns, EnsureRecord, Annotate;
    var name, svc := cr.dnsName, w.services[cr.dnsName];
    AnnotateSets(w, name, svc, IDLE_KEY, IDLE_VALUE);
    var idle := Annotate(w, name, svc, IDLE_KEY, IDLE_VALUE);
    AnnotateSets(idle.w, name, idle.svc, TAG_KEY, TAG_VALUE);
    var tag := Annotate(idle.w, name, idle.svc, TAG_KEY, TAG_VALUE);
    var last := tag.w.(zones := EnsureRecord(w.zones, name, svc.lb, cloud));
    assert EnsureService(w, cr, cloud, now) == EnsureDns(last, cr, cloud.reply, now);
    DnsServices(last, cr, cloud.reply, now);
    assert svc.annotations[IDLE_KEY := IDLE_VALUE][TAG_KEY := TAG_VALUE] == svc.annotations + Annotations();
    assert last.services == w.services[name := svc.(annotations := svc.annotations + Annotations())];
  }

  lemma AnnotateSets(w: World, name: string, svc: Service, key: string, value: string)
    requires w.faults == [] && name in w.services && w.services[name] == svc
    requires !(svc.deleting && svc.finalizers == [])
    ensures var r := Annotate(w, name, svc, key, value);
            && r.ok && r.svc == svc.(annotations := svc.annotations[key := value])
            && r.w == w.(services := w.services[name := r.svc])
  {
    assert key in svc.annotations && svc.annotations[key] == value ==> svc.annotations[key := value] == svc.annotations;
    assert w.services == w.services[name := svc];
  }

  lemma DnsServices(w: World, cr: Scheme, reply: CloudReply, now: int)
    requires w.cr == Some(cr)
    ensures var r := EnsureDns(w, cr, reply, now);
            r.calls == [EnsureCall(cr.dnsName, w.cr)] && (!Lost(cr, reply) ==> r.w.services == w.services)
  {
    hide SetStatus, Find, ReportOf;
    FoundReady(cr);
    var report := ReportOf(cr, reply);
    StatusMeans(w, cr, report.reason, report.message, report.ctype, now);
  }

  // --- A pass that does not call the cloud ---

  /** It fails only through a failing call, and asks for another pass only having written the Service. */
  lemma ServiceNoCall(w: World, cr: Scheme, cloud: Cloud, now: int)
    requires w.cr == Some(cr) && Kept(w.services)
    ensures var r := EnsureService(w, cr, cloud, now);
            r.calls == [] ==>
              || (r.outcome == Failed && !Calm(w))
              || (r.outcome == Requeue && r.w.services != w.services)
  {
    hide EnsureDns, EnsureRecord, Calm, Annotate;
    var name := cr.dnsName;
    CalmLater(w);
    CalmLater(w.Next());
    if !w.Fails() && name in w.services {
      var svc := w.services[name];
      if svc.ranges == cr.cidrs && svc.policy == LOCAL {
        var idle := Annotate(w.Next(), name, svc, IDLE_KEY, IDLE_VALUE);
        AnnotateFails(w.Next(), name, svc);
        var tag := Annotate(idle.w, name, idle.svc, TAG_KEY, TAG_VALUE);
        EnsureDnsCalls(tag.w.(zones := EnsureRecord(w.zones, name, svc.lb, cloud)), cr, cloud.reply, now);
      } else {
        ChangedService(w, name, if svc.ranges != cr.cidrs then svc.(ranges := cr.cidrs) else svc.(policy := LOCAL));
      }
    }
  }

  lemma ChangedService(w: World, name: string, svc: Service)
    requires name in w.services && svc != w.services[name]
    ensures !w.Next().Fails() ==> AfterUpdateService(w.Next(), name, svc).services != w.services
  {
    assert w.services[name := svc][name] == svc;
    assert name !in w.services - {name};
  }

  lemma AnnotateFails(w: World, name: string, svc: Service)
    requires name in w.services && w.services[name] == svc && !(svc.deleting && svc.finalizers == [])
    ensures var idle := Annotate(w, name, svc, IDLE_KEY, IDLE_VALUE);
            !idle.ok || !Annotate(idle.w, name, idle.svc, TAG_KEY, TAG_VALUE).ok ==> !Calm(w)
  {
    CalmLater(w);
    CalmLater(w.Next());
  }

  /**
   * A pass that makes no call to the cloud, from any state: it fails only through a failing call; it
   * asks for another pass only if it wrote the Service or took the finalizer off; and it is done only if
   * it found no object, a disabled one, or a deleting one without the finalizer, and then it wrote
   * nothing.
   */
  lemma NoCallMeans(w: World, cloud: Cloud, now: int)
    requires Kept(w.services)
    ensures var r := Reconcile(w, cloud, now);
            r.calls == [] ==>
              match r.outcome
              case Failed => !Calm(w)
              case Requeue => r.w.services != w.services || (Holds(w.cr) && !Holds(r.w.cr))
              case Panicked => true
              case Done =>
                && !CallFails(w.faults)
                && (w.cr.Some? && w.cr.value.enabled ==> w.cr.value.deleting && !Holds(w.cr))
                && r.w.cr == w.cr && r.w.services == w.services && r.w.zones == w.zones
  {
    hide SetStatus, Finalize, EnsureService, AfterUpdateCr, Connect, SameBefore, Calm;
    CalmLater(w);
    if !w.Fails() && w.cr.Some? && w.cr.value.enabled {
      var cr, connection := w.cr.value, Connect(w.Next(), cloud.usable);
      var w1 := connection.w;
      ConnectSame(w.Next(), cloud.usable);
      ConnectEffect(w.Next(), cloud.usable);
      ConnectCalm(w.Next(), cloud.usable);
      CalmLater(w1);
      if connection.state == Connected {
        if cr.deleting {
          FinalizeNoCall(w1, cr, cloud, now);
        } else {
          var cr' := cr.(finalizers := cr.finalizers + [DNS_FINALIZER]);
          ServiceNoCall(w1, cr, cloud, now);
          if UpdateCrOk(w1) {
            FinalizerSame(w1, cr, cr');
            UpdateCalm(w1, cr');
            ServiceNoCall(AfterUpdateCr(w1, cr'), cr', cloud, now);
          }
        }
      }
    }
  }

  lemma ConnectCalm(w: World, usable: bool)
    ensures Calm(w) ==> Calm(Connect(w, usable).w)
    ensures Connect(w, usable).state == Unreadable ==> !Calm(w)
  {
    CalmLater(w);
    if w.platform.Some? { MakeCalm(w.Next().faults, CloudClients.BuildCalls(w.platform.value)); }
  }

  lemma UpdateCalm(w: World, cr: Scheme)
    ensures Calm(w) ==> Calm(AfterUpdateCr(w, cr))
  {
    CalmLater(w);
  }

  lemma FinalizeNoCall(w: World, cr: Scheme, cloud: Cloud, now: int)
    requires w.cr == Some(cr)
    ensures var r := Finalize(w, cr, cloud, now);
            r.calls == [] ==>
              if !Holds(w.cr) then r == NoCall(w, Done)
              else (r.outcome == Failed && !Calm(w)) || (r.outcome == Requeue && !Holds(r.w.cr))
  {
    hide SetStatus, DropFinalizer, DeleteRecord, Calm;
    CalmLater(w);
    CalmLater(w.Next());
    if Holds(w.cr) && !w.Fails() && cr.dnsName !in w.services {
      DropEffect(w.Next(), cr);
      DropOutcome(w.Next(), cr);
    }
  }

  lemma DropOutcome(w: World, cr: Scheme)
    requires w.cr.Some?
    ensures DropFinalizer(w, cr).outcome == if CallFails(w.faults) then Failed else Requeue
  {
  }
}
