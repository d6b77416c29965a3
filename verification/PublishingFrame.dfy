/** What one pass may touch, and what a pass that ends with no error and no requeue has established. */
module PublishingFrame {
  import opened Basics
  import opened EntryFields
  import FinalizerLists
  import opened IngressControllers
  import opened KubeApi
  import opened Publishing

  type Controllers = map<string, IngressController>

  ghost predicate SameAt(a: Controllers, b: Controllers, n: string) {
    (n in a <==> n in b) && (n in a ==> a[n] == b[n])
  }

  ghost predicate SameOutside(a: Controllers, b: Controllers, names: set<string>) {
    forall n :: n !in names ==> SameAt(a, b, n)
  }

  /** The object exists and its owner annotation names this operator. */
  predicate IsOwned(ics: Controllers, n: string) {
    n in ics && "Owner" in ics[n].annotations && ics[n].annotations["Owner"] == "cloud-ingress-operator"
  }

  /** Some entry of the strategy refers to the name. */
  ghost predicate Refers(entries: seq<ApplicationIngress>, n: string) {
    exists i :: 0 <= i < |entries| && NameOf(entries[i]) == Some(n)
  }

  /** Every check of the loop lets this object pass. */
  predicate Settled(c: Cluster, e: ApplicationIngress, ic: IngressController) {
    var isDefault := NameOf(e) == Some(DEFAULT);
    && !ic.deleting
    && (c.IsAws() ==> ValidateAwsType(ic, TypeOn(c, e)) == Pass)
    && (|| ValidateStaticSpec(c.gates, ic, Desired(c, e))
        || (isDefault && ValidateStaticStatus(c.gates, ic, Desired(c, e))))
    && var patch := ValidatePatchable(c.gates, ic.spec, Desired(c, e));
       || patch == AllMatch
       || (isDefault && patch == Differs(Selector) && ValidatePatchableStatus(ic, Desired(c, e)))
  }

  lemma WritesTouchOneName(w: World, name: string, ic: IngressController)
    ensures SameOutside(w.ics, AfterCreate(w, name, ic).ics, {name})
    ensures SameOutside(w.ics, AfterStore(w, name, ic).ics, {name})
    ensures SameOutside(w.ics, AfterDelete(w, name).ics, {name})
  {
  }

  lemma RecreateTouchesItsName(w: World, name: string, ic: IngressController, desired: Spec)
    ensures SameOutside(w.ics, Recreate(w, name, ic, desired).w.ics, {name})
    ensures SameOutside(w.ics, DeleteAndCreate(w, name, desired).w.ics, {name})
  {
    WritesTouchOneName(w, name, NewController(desired));
    WritesTouchOneName(AfterDelete(w, name), name, NewController(desired));
    if CLOUD_FINALIZER in ic.finalizers && FinalizerLists.Remove(ic.finalizers, CLOUD_FINALIZER).Some? {
      var ic' := ic.(finalizers := FinalizerLists.Remove(ic.finalizers, CLOUD_FINALIZER).value);
      var w' := AfterStore(w, name, ic');
      WritesTouchOneName(w, name, ic');
      WritesTouchOneName(w', name, NewController(desired));
      WritesTouchOneName(AfterDelete(w', name), name, NewController(desired));
    }
  }

  lemma StaticTouchesItsName(c: Cluster, w: World, name: string, ic: IngressController, desired: DesiredSpec)
    ensures SameOutside(w.ics, EnsureStatic(c, w, name, ic, desired).w.ics, {name})
  {
    var ic' := ic.(finalizers := ic.finalizers + [CLOUD_FINALIZER]);
    WritesTouchOneName(w, name, ic');
    WritesTouchOneName(AfterStore(w, name, ic'), name, ic');
  }

  lemma PatchTouchesItsName(c: Cluster, w: World, name: string, ic: IngressController, desired: DesiredSpec)
    ensures SameOutside(w.ics, EnsurePatchable(c, w, name, ic, desired).w.ics, {name})
  {
    var patch := ValidatePatchable(c.gates, ic.spec, desired);
    if patch.Differs? {
      WritesTouchOneName(w, name, ic.(spec := CopyField(patch.field, ic.spec, desired)));
    }
  }

  lemma EnsureTouchesItsName(c: Cluster, w: World, name: string, ic: IngressController, e: ApplicationIngress)
    ensures SameOutside(w.ics, EnsureExisting(c, w, name, ic, e).w.ics, {name})
  {
    if ic.deleting {
      RecreateTouchesItsName(w, name, ic, Desired(c, e));
    } else {
      WritesTouchOneName(w, name, ic);
      var aws := if c.IsAws() then EnsureAwsType(w, name, ic, TypeOn(c, e)) else Step(w, Continue);
      assert SameOutside(w.ics, aws.w.ics, {name}) && (aws.flow == Continue ==> aws.w == w);
      if aws.flow == Continue {
        StaticTouchesItsName(c, w, name, ic, Desired(c, e));
        StaticContinues(c, w, name, ic, Desired(c, e));
        PatchTouchesItsName(c, w, name, ic, Desired(c, e));
      }
    }
  }

  lemma StaticContinues(c: Cluster, w: World, name: string, ic: IngressController, desired: DesiredSpec)
    ensures var r := EnsureStatic(c, w, name, ic, desired);
            r.flow == Continue ==>
              && r.w == w
              && (|| ValidateStaticSpec(c.gates, ic, desired)
                  || (name == DEFAULT && ValidateStaticStatus(c.gates, ic, desired)))
  {
  }

  lemma VisitTouchesItsName(c: Cluster, base: string, e: ApplicationIngress, w: World, m: Seen)
    ensures var r := Visit(c, base, e, w, m);
            && SameOutside(w.ics, r.w.ics, if NameOf(e).Some? then {NameOf(e).value} else {})
            && r.seen.Keys <= m.Keys + (if NameOf(e).Some? then {NameOf(e).value} else {})
  {
    hide EnsureExisting, Desired, NameOf, HasSuffix, AfterCreate, CreateAck;
    if NameOf(e).Some? {
      var name, w2 := NameOf(e).value, w.Next().Next();
      WritesTouchOneName(w2, name, NewController(Desired(c, e)));
      if name in w.ics { EnsureTouchesItsName(c, w2, name, w.ics[name], e); }
    }
  }

  lemma VisitContinues(c: Cluster, base: string, e: ApplicationIngress, w: World, m: Seen)
    ensures var r := Visit(c, base, e, w, m);
            r.flow == Continue ==>
              && r.w.ics == w.ics
              && NameOf(e).Some? && NameOf(e).value in w.ics
              && Settled(c, e, w.ics[NameOf(e).value])
              && r.seen == m[NameOf(e).value := true]
  {
    hide ValidatePatchable, ValidateStaticSpec, ValidateStaticStatus, ValidateAwsType, ValidatePatchableStatus;
    hide Desired, TypeOn;
    hide NameOf, HasSuffix, AfterStore, AfterDelete, AfterCreate, CopyField, FinalizerLists.Remove;
  }

  lemma {:induction false} LoopTouchesReferredNames(c: Cluster, base: string, entries: seq<ApplicationIngress>,
                                                    w: World, m: Seen, names: set<string>)
    requires forall i :: 0 <= i < |entries| && NameOf(entries[i]).Some? ==> NameOf(entries[i]).value in names
    ensures var r := VisitAll(c, base, entries, w, m);
            SameOutside(w.ics, r.w.ics, names) && r.seen.Keys <= m.Keys + names
  {
    hide Visit, NameOf;
    if entries != [] {
      var first := Visit(c, base, entries[0], w, m);
      VisitTouchesItsName(c, base, entries[0], w, m);
      LoopTouchesReferredNames(c, base, entries[1..], first.w, first.seen, names);
    }
  }

  /** A loop that runs to its end wrote nothing: every write of the loop requeues. */
  lemma {:induction false} LoopContinues(c: Cluster, base: string, entries: seq<ApplicationIngress>, w: World, m: Seen)
    requires VisitAll(c, base, entries, w, m).flow == Continue
    ensures var r := VisitAll(c, base, entries, w, m);
            && r.w.ics == w.ics
            && (forall i :: 0 <= i < |entries| ==>
                  && NameOf(entries[i]).Some? && NameOf(entries[i]).value in w.ics
                  && Settled(c, entries[i], w.ics[NameOf(entries[i]).value]))
            && (forall n :: Published(r.seen, n) <==> Published(m, n) || Refers(entries, n))
            && (forall n :: n in m ==> n in r.seen)
  {
    hide Visit, NameOf, Settled;
    if entries != [] {
      var first := Visit(c, base, entries[0], w, m);
      VisitContinues(c, base, entries[0], w, m);
      LoopContinues(c, base, entries[1..], first.w, first.seen);
      forall n ensures Refers(entries, n) <==> NameOf(entries[0]) == Some(n) || Refers(entries[1..], n) {
        RefersSplit(entries, n);
      }
    }
  }

  lemma FaultFreeVisit(c: Cluster, base: string, e: ApplicationIngress, w: World, m: Seen)
    ensures w.faults == [] && Visit(c, base, e, w, m).flow == Continue ==> Visit(c, base, e, w, m).w.faults == []
  {
    hide ValidatePatchable, ValidateStaticSpec, ValidateStaticStatus, ValidateAwsType, ValidatePatchableStatus;
    hide Desired, TypeOn;
    hide NameOf, HasSuffix, AfterStore, AfterDelete, AfterCreate, CopyField, FinalizerLists.Remove;
  }

  lemma {:induction false} FaultFreeLoop(c: Cluster, base: string, entries: seq<ApplicationIngress>, w: World, m: Seen)
    requires w.faults == [] && VisitAll(c, base, entries, w, m).flow == Continue
    ensures VisitAll(c, base, entries, w, m).w.faults == []
  {
    hide Visit;
    if entries != [] {
      var first := Visit(c, base, entries[0], w, m);
      FaultFreeVisit(c, base, entries[0], w, m);
      FaultFreeLoop(c, base, entries[1..], first.w, first.seen);
    }
  }

  lemma RefersSplit(entries: seq<ApplicationIngress>, n: string)
    requires entries != []
    ensures Refers(entries, n) <==> NameOf(entries[0]) == Some(n) || Refers(entries[1..], n)
  {
    if Refers(entries[1..], n) {
      var i :| 0 <= i < |entries[1..]| && NameOf(entries[1..][i]) == Some(n);
      assert NameOf(entries[i + 1]) == Some(n);
    }
    if Refers(entries, n) {
      var i :| 0 <= i < |entries| && NameOf(entries[i]) == Some(n);
      assert i > 0 ==> entries[1..][i - 1] == entries[i];
    }
  }

  const NOTES := map["Owner" := "cloud-ingress-operator",
                     "ingress.operator.openshift.io/auto-delete-load-balancer" := ""]

  /** Annotating gives published objects these two annotations and no other, and changes nothing else. */
  ghost predicate SameButNotes(a: Controllers, b: Controllers, m: Seen) {
    && a.Keys == b.Keys
    && forall n :: n in a ==>
         || b[n] == a[n]
         || (Published(m, n) && b[n] == a[n].(annotations := NOTES))
  }

  lemma {:induction false} AnnotateChangesNotes(w: World, m: Seen, order: seq<string>)
    requires forall n :: Published(m, n) && n in w.ics ==> !w.ics[n].deleting
    ensures SameButNotes(w.ics, Annotate(w, m, order).w.ics, m)
    decreases order
  {
    if order != [] {
      var n := order[0];
      if !Published(m, n) {
        AnnotateChangesNotes(w, m, order[1..]);
      } else if GetReply(w, n).Found? && DELETE_LB !in w.ics[n].annotations {
        var w' := AfterStore(w.Next(), n, Annotated(w.ics[n]));
        if WriteAck(w.Next(), n) == Acked {
          AnnotateChangesNotes(w', m, order[1..]);
        }
      }
    }
  }

  lemma {:induction false} DeleteUnpublishedDeletes(w: World, m: Seen, order: seq<string>)
    ensures Shrinks(w.ics, DeleteUnpublished(w, m, order), m, order)
    decreases order
  {
    if order != [] {
      var n := order[0];
      if n !in m || m[n] {
        DeleteUnpublishedDeletes(w, m, order[1..]);
      } else if GetReply(w, n).Found? && WriteAck(w.Next(), n) == Acked {
        var w1 := AfterDelete(w.Next(), n);
        DeleteMarks(w.Next(), n);
        DeleteUnpublishedDeletes(w1, m, order[1..]);
        assert DeleteUnpublished(w, m, order) == DeleteUnpublished(w1, m, order[1..]);
        DeleteOneThenRest(w.ics, w1.ics, DeleteUnpublished(w1, m, order[1..]), m, order);
      } else {
        assert DeleteUnpublished(w, m, order).w.ics == w.ics && DeleteUnpublished(w, m, order).flow != Continue;
      }
    }
  }

  /** What a successful or failed clean-up leaves of the objects. */
  ghost predicate Shrinks(a: Controllers, r: Step, m: Seen, order: seq<string>) {
    && (forall n :: SameAt(a, r.w.ics, n) || (n in order && n in m && !m[n]))
    && (forall n :: n in r.w.ics ==> n in a && (r.w.ics[n] == a[n] || r.w.ics[n] == a[n].(deleting := true)))
    && (r.flow == Continue ==> forall n :: n in order && n in m && !m[n] && n in r.w.ics ==> r.w.ics[n].deleting)
  }

  lemma DeleteOneThenRest(a: Controllers, b: Controllers, r: Step, m: Seen, order: seq<string>)
    requires order != [] && order[0] in m && !m[order[0]] && order[0] in a
    requires SameOutside(a, b, {order[0]})
    requires order[0] in b ==> b[order[0]] == a[order[0]].(deleting := true)
    requires Shrinks(b, r, m, order[1..])
    ensures Shrinks(a, r, m, order)
  {
    assert forall x :: x in order <==> x == order[0] || x in order[1..];
    forall n ensures SameAt(a, r.w.ics, n) || (n in order && n in m && !m[n]) {
      assert n == order[0] || SameAt(a, b, n);
    }
    forall n | n in r.w.ics ensures n in a && (r.w.ics[n] == a[n] || r.w.ics[n] == a[n].(deleting := true)) {
      assert n in b && (n == order[0] || SameAt(a, b, n));
    }
  }

  lemma DeleteMarks(w: World, n: string)
    requires WriteAck(w, n) == Acked
    ensures var w1 := AfterDelete(w, n);
            SameOutside(w.ics, w1.ics, {n}) && (n in w1.ics ==> w1.ics[n] == w.ics[n].(deleting := true))
  {
  }

  lemma DisownTouchesDefault(w: World)
    ensures SameOutside(w.ics, Disown(w).w.ics, {DEFAULT})
    ensures Disown(w).flow == Continue ==>
              && DEFAULT in w.ics && DEFAULT in Disown(w).w.ics
              && Disown(w).w.ics[DEFAULT] == Disowned(w.ics[DEFAULT])
    ensures DEFAULT in w.ics ==> DEFAULT in Disown(w).w.ics && Disown(w).w.ics[DEFAULT].spec == w.ics[DEFAULT].spec
    ensures DEFAULT in Disown(w).w.ics ==> DEFAULT in w.ics
  {
  }

  lemma {:induction false} SecondsAreOwned(entries: seq<ApplicationIngress>, m: Seen)
    requires NoNewSecond(entries, m) == Continue
    ensures forall i :: 0 <= i < |entries| && NameOf(entries[i]).Some? ==>
              NameOf(entries[i]).value in m.Keys + {DEFAULT}
  {
    if entries != [] {
      SecondsAreOwned(entries[1..], m);
      forall i | 0 <= i < |entries| && NameOf(entries[i]).Some?
        ensures NameOf(entries[i]).value in m.Keys + {DEFAULT}
      {
        if i > 0 { assert entries[i] == entries[1..][i - 1]; }
      }
    }
  }

  lemma NotesStayInside(a: Controllers, b: Controllers, m: Seen)
    requires SameButNotes(a, b, m)
    ensures SameOutside(a, b, m.Keys)
  {
  }

  lemma SameOutsideTwice(a: Controllers, b: Controllers, c: Controllers, x: set<string>, y: set<string>, z: set<string>)
    requires SameOutside(a, b, x) && SameOutside(b, c, y) && x <= z && y <= z
    ensures SameOutside(a, c, z)
  {
    forall n | n !in z ensures SameAt(a, c, n) {
      assert SameAt(a, b, n) && SameAt(b, c, n);
    }
  }

  lemma AliasWritesNothing(c: Cluster, w: World, listening: string, cloud: CloudSide)
    ensures AliasScope(c, w, listening, cloud).w.ics == w.ics
  {
  }

  /** The last step: disown `default` or delete the unpublished. */
  function LastStep(c: Cluster, w: World, m: Seen, o: Choices): Step {
    if c.gates.v413 && !Published(m, DEFAULT) then Disown(w) else DeleteUnpublished(w, m, o.delete)
  }

  lemma LastStepTouches(c: Cluster, w: World, m: Seen, o: Choices)
    ensures SameOutside(w.ics, LastStep(c, w, m, o).w.ics, m.Keys + {DEFAULT})
  {
    DisownTouchesDefault(w);
    DeleteUnpublishedDeletes(w, m, o.delete);
  }

  function Noted(c: Cluster, s: Strategy, w: World, m: Seen, o: Choices): Step {
    var notes := Annotate(w, m, o.annotate);
    if notes.flow != Continue then notes else AliasScope(c, notes.w, s.listening, o.cloud)
  }

  lemma AfterLoopInTwo(c: Cluster, s: Strategy, w: World, m: Seen, o: Choices)
    ensures var noted := Noted(c, s, w, m, o);
            AfterLoop(c, s, w, m, o) == Finish(if noted.flow != Continue then noted else LastStep(c, noted.w, m, o))
  {
  }

  lemma NotedChangesNotes(c: Cluster, s: Strategy, w: World, m: Seen, o: Choices)
    requires forall n :: Published(m, n) && n in w.ics ==> !w.ics[n].deleting
    ensures SameButNotes(w.ics, Noted(c, s, w, m, o).w.ics, m)
  {
    AnnotateChangesNotes(w, m, o.annotate);
    AliasWritesNothing(c, Annotate(w, m, o.annotate).w, s.listening, o.cloud);
  }

  /** What the steps after a completed loop may change. */
  lemma AfterLoopTouches(c: Cluster, s: Strategy, w: World, m: Seen, o: Choices)
    requires forall n :: Published(m, n) && n in w.ics ==> !w.ics[n].deleting
    ensures SameOutside(w.ics, AfterLoop(c, s, w, m, o).w.ics, m.Keys + {DEFAULT})
  {
    var noted := Noted(c, s, w, m, o);
    AfterLoopInTwo(c, s, w, m, o);
    NotedChangesNotes(c, s, w, m, o);
    NotesStayInside(w.ics, noted.w.ics, m);
    LastStepTouches(c, noted.w, m, o);
    var names := m.Keys + {DEFAULT};
    SameOutsideTwice(w.ics, noted.w.ics, LastStep(c, noted.w, m, o).w.ics, m.Keys, names, names);
  }

  lemma LoopFacts(c: Cluster, s: Strategy, w: World)
    requires NoNewSecond(s.entries, InitialSeen(w)) == Continue
    ensures var r := Loop(c, s, w);
            && SameOutside(w.ics, r.w.ics, OwnedNames(w) + {DEFAULT})
            && r.seen.Keys <= OwnedNames(w) + {DEFAULT}
            && (r.flow == Continue ==>
                  && r.w.ics == w.ics
                  && (forall n :: Published(r.seen, n) <==> Refers(s.entries, n))
                  && (forall n :: Published(r.seen, n) ==> n in w.ics && !w.ics[n].deleting)
                  && OwnedNames(w) <= r.seen.Keys
                  && forall i :: 0 <= i < |s.entries| ==>
                       && NameOf(s.entries[i]).Some? && NameOf(s.entries[i]).value in w.ics
                       && Settled(c, s.entries[i], w.ics[NameOf(s.entries[i]).value]))
  {
    var m := InitialSeen(w);
    SecondsAreOwned(s.entries, m);
    LoopTouchesReferredNames(c, BaseSeen(c, w), s.entries, AfterReads(w), m, OwnedNames(w) + {DEFAULT});
    if Loop(c, s, w).flow == Continue {
      LoopContinues(c, BaseSeen(c, w), s.entries, AfterReads(w), m);
    }
  }

  /**
   * Whatever calls fail, a pass leaves every name alone that is neither owned by this operator nor
   * `default`. A name that does not exist is not owned, so no other name is ever created.
   */
  lemma PassTouchesOwnedOrDefault(c: Cluster, instance: Option<Strategy>, w: World, o: Choices, n: string)
    requires !IsOwned(w.ics, n) && n != "default"
    ensures SameAt(w.ics, Reconcile(c, instance, w, o).w.ics, n)
  {
    if instance.Some? && !w.Fails() && !ReadsFail(c, w)
        && NoNewSecond(instance.value.entries, InitialSeen(w)) == Continue {
      var r := Loop(c, instance.value, w);
      LoopFacts(c, instance.value, w);
      if r.flow == Continue {
        AfterLoopTouches(c, instance.value, r.w, r.seen, o);
      }
    }
  }

  /** The passes of a run with one strategy. */
  function RunPass(c: Cluster, s: Strategy, w: World, p: PassInput): PassResult {
    Reconcile(c, Some(s), w.(faults := p.faults), p.choices)
  }

  function RunPasses(c: Cluster, s: Strategy, w: World, ps: seq<PassInput>): World {
    if ps == [] then w else RunPass(c, s, RunPasses(c, s, w, ps[..|ps| - 1]), ps[|ps| - 1]).w
  }

  /** One reconcile of a run: the strategy, the platform and the failures may differ each time. */
  datatype Turn = Turn(cluster: Cluster, instance: Option<Strategy>, faults: seq<bool>, choices: Choices)

  function RunTurn(t: Turn, w: World): PassResult {
    Reconcile(t.cluster, t.instance, w.(faults := t.faults), t.choices)
  }

  function Run(w: World, turns: seq<Turn>): World
    decreases turns
  {
    if turns == [] then w else Run(RunTurn(turns[0], w).w, turns[1..])
  }

  /** Over any run, such a name is as it was at the start: the set of names never grows beyond `default`. */
  lemma {:induction false} RunTouchesOwnedOrDefault(w: World, turns: seq<Turn>, n: string)
    requires !IsOwned(w.ics, n) && n != "default"
    ensures SameAt(w.ics, Run(w, turns).ics, n)
    decreases turns
  {
    if turns != [] {
      var t := turns[0];
      PassTouchesOwnedOrDefault(t.cluster, t.instance, w.(faults := t.faults), t.choices, n);
      RunTouchesOwnedOrDefault(RunTurn(t, w).w, turns[1..], n);
    }
  }

  /** An object this operator still owns, live, that no entry refers to. */
  ghost predicate Leftover(s: Strategy, ics: Controllers, n: string) {
    IsOwned(ics, n) && !ics[n].deleting && !Refers(s.entries, n)
  }

  /** The object exists, live, with the values its entry asks for. */
  predicate Agrees(e: ApplicationIngress, ic: IngressController) {
    && !ic.deleting
    && ic.spec.domain == e.dnsName
    && HasScope(ic.spec.endpoint, WantedScope(e))
    && ic.spec.certificate == Some(e.certificate)
    && ic.spec.routeSelector.Some? && ic.spec.routeSelector.value.matchLabels == e.routeSelector.matchLabels
    && ic.spec.placement.Some? && ic.spec.placement.value.nodeSelector.Some?
    && ic.spec.placement.value.nodeSelector.value.matchLabels == INFRA_LABELS
  }

  /** On AWS the load balancer has the type the entry asks for. */
  predicate TypeAgrees(c: Cluster, e: ApplicationIngress, ic: IngressController) {
    c.platform == Some("AWS") ==> !NoType(ic) && !TypeDiffers(e, ic)
  }

  /** The world in which the last step of a pass runs. */
  function BeforeLast(c: Cluster, s: Strategy, w: World, o: Choices): World {
    Noted(c, s, Loop(c, s, w).w, Loop(c, s, w).seen, o).w
  }

  lemma DonePassRan(c: Cluster, s: Strategy, w: World, o: Choices)
    requires Reconcile(c, Some(s), w, o).outcome == Done
    ensures NoNewSecond(s.entries, InitialSeen(w)) == Continue && Loop(c, s, w).flow == Continue
    ensures Noted(c, s, Loop(c, s, w).w, Loop(c, s, w).seen, o).flow == Continue
    ensures LastStep(c, BeforeLast(c, s, w, o), Loop(c, s, w).seen, o).flow == Continue
    ensures Reconcile(c, Some(s), w, o).w == LastStep(c, BeforeLast(c, s, w, o), Loop(c, s, w).seen, o).w
  {
    AfterLoopInTwo(c, s, Loop(c, s, w).w, Loop(c, s, w).seen, o);
  }

  lemma BeforeLastChangesNotes(c: Cluster, s: Strategy, w: World, o: Choices)
    requires Reconcile(c, Some(s), w, o).outcome == Done
    ensures SameButNotes(w.ics, BeforeLast(c, s, w, o).ics, Loop(c, s, w).seen)
  {
    DonePassRan(c, s, w, o);
    LoopFacts(c, s, w);
    NotedChangesNotes(c, s, Loop(c, s, w).w, Loop(c, s, w).seen, o);
  }

  lemma SettledAgrees(c: Cluster, e: ApplicationIngress, ic: IngressController)
    requires Settled(c, e, ic)
    ensures TypeAgrees(c, e, ic)
    ensures NameOf(e) != Some(DEFAULT) ==> Agrees(e, ic)
  {
    if c.platform == Some("AWS") { TypeMeans(c, e, ic); }
  }

  lemma LastStepSparesPublished(c: Cluster, w: World, m: Seen, o: Choices, n: string)
    requires Published(m, n) && n in w.ics
    ensures n in LastStep(c, w, m, o).w.ics && LastStep(c, w, m, o).w.ics[n] == w.ics[n]
  {
    DisownTouchesDefault(w);
    DeleteUnpublishedDeletes(w, m, o.delete);
    assert SameAt(w.ics, LastStep(c, w, m, o).w.ics, n);
  }

  /**
   * A pass that ends with no error and no requeue: every entry's object exists, is live and on AWS has
   * the right load balancer type, and one other than `default` agrees with its entry in the other
   * fields, at every cluster version.
   */
  lemma DonePassMeetsEntries(c: Cluster, s: Strategy, w: World, o: Choices, i: nat)
    requires Reconcile(c, Some(s), w, o).outcome == Done
    requires i < |s.entries|
    ensures NameOf(s.entries[i]).Some?
    ensures var name := NameOf(s.entries[i]).value;
            var ics := Reconcile(c, Some(s), w, o).w.ics;
            && name in ics && !ics[name].deleting && TypeAgrees(c, s.entries[i], ics[name])
            && (name != "default" ==> Agrees(s.entries[i], ics[name]))
  {
    hide Reconcile, Loop, BeforeLast, NoNewSecond, LastStep, NameOf, Desired, Settled;
    DonePassRan(c, s, w, o);
    LoopFacts(c, s, w);
    BeforeLastChangesNotes(c, s, w, o);
    var name := NameOf(s.entries[i]).value;
    var m, before := Loop(c, s, w).seen, BeforeLast(c, s, w, o);
    assert Refers(s.entries, name) && Published(m, name);
    LastStepSparesPublished(c, before, m, o, name);
    assert before.ics[name].spec == w.ics[name].spec && !before.ics[name].deleting;
    assert before.ics[name].status == w.ics[name].status;
    SettledAgrees(c, s.entries[i], w.ics[name]);
  }

  lemma NotesKeepLeftovers(s: Strategy, a: Controllers, b: Controllers, m: Seen, n: string)
    requires SameButNotes(a, b, m) && (Published(m, n) <==> Refers(s.entries, n))
    ensures Leftover(s, a, n) <==> Leftover(s, b, n)
  {
  }

  /**
   * Such a pass leaves no unpublished object owned and live exactly when it reached the clean-up:
   * on 4.13 or later with no `default` entry it returns before it, so whatever was left over stays.
   */
  lemma DonePassCleansUp(c: Cluster, s: Strategy, w: World, o: Choices)
    requires Reconcile(c, Some(s), w, o).outcome == Done
    requires ValidOrders(c, Some(s), w, o)
    ensures (forall n :: !Leftover(s, Reconcile(c, Some(s), w, o).w.ics, n))
            <==> || !c.gates.v413
                 || Refers(s.entries, DEFAULT)
                 || (forall n :: n != DEFAULT ==> !Leftover(s, w.ics, n))
  {
    hide Reconcile, Loop, BeforeLast, NoNewSecond, Disown, DeleteUnpublished, Settled;
    DonePassRan(c, s, w, o);
    LoopFacts(c, s, w);
    BeforeLastChangesNotes(c, s, w, o);
    var m, before := Loop(c, s, w).seen, BeforeLast(c, s, w, o);
    var last := LastStep(c, before, m, o).w;
    forall n ensures Leftover(s, w.ics, n) <==> Leftover(s, before.ics, n) {
      NotesKeepLeftovers(s, w.ics, before.ics, m, n);
    }
    if c.gates.v413 && !Refers(s.entries, DEFAULT) {
      DisownTouchesDefault(before);
      forall n | n != DEFAULT ensures Leftover(s, last.ics, n) <==> Leftover(s, before.ics, n) {
        assert SameAt(before.ics, last.ics, n);
      }
      assert !Leftover(s, last.ics, DEFAULT);
    } else {
      DeleteUnpublishedDeletes(before, m, o.delete);
      forall n ensures !Leftover(s, last.ics, n) {
        assert Leftover(s, w.ics, n) ==> n in OwnedNames(w) && n in m && n in o.delete;
      }
    }
  }

  /**
   * The input on which it stays: on 4.13 or later, with no entries and a `default` of the cluster
   * operator, a pass without any failing call ends cleanly and the owned object is still there, live.
   */
  lemma CleanPassLeavesRouter(c: Cluster, listening: string, router: IngressController, other: IngressController)
    requires c.gates.v413 && c.platform == Some("AWS") && !c.ShortHost()
    requires router.Owned() && !router.deleting && !other.Owned()
    ensures var s := Strategy([], listening);
            var w := World(map["apps2" := router, DEFAULT := other], []);
            var o := Choices(["apps2"], ["apps2"], CloudSide(true, Switched));
            && ValidOrders(c, Some(s), w, o)
            && Reconcile(c, Some(s), w, o) == PassResult(World(w.ics[DEFAULT := Disowned(other)], []), Done)
            && Leftover(s, Reconcile(c, Some(s), w, o).w.ics, "apps2")
  {
    var s := Strategy([], listening);
    var w := World(map["apps2" := router, DEFAULT := other], []);
    assert OwnedNames(w) == {"apps2"};
    assert Annotate(w, InitialSeen(w), ["apps2"]) == Annotate(w, InitialSeen(w), []);
  }
}
