/** What a pass does at the entry it gets to, in the words of the entry and its object. */
module PublishingEntry {
  import opened Basics
  import opened EntryFields
  import FinalizerLists
  import opened IngressControllers
  import opened KubeApi
  import opened Publishing
  import opened PublishingFrame
  import opened PublishingConvergence
  import opened PublishingPanics
  import opened PublishingInterleaving

  lemma SettledMeans(c: Cluster, e: ApplicationIngress, ic: IngressController)
    ensures Settled(c, e, ic) <==> AsWanted(c, e, ic)
  {
    if c.IsAws() { TypeMeans(c, e, ic); }
    StaticMeans(c, e, ic);
    PatchMeans(c, e, ic.spec);
    hide ValidateAwsType, ValidateStaticSpec, ValidateStaticStatus, ValidatePatchable, TypeOn;
    hide TypeDiffers, NoType, ImmutableDiffers, SelectorDiffers, CertificateDiffers, PlacementDiffers, EndpointDiffers;
  }

  /** The objects once `name` is on its way out: `default` gets the cloud finalizer first, unless its type is wrong. */
  function Replacing(c: Cluster, e: ApplicationIngress, name: string, ics: Controllers): Controllers
    requires name in ics
  {
    var ic := ics[name];
    var typeWrong := c.platform == Some("AWS") && TypeDiffers(e, ic);
    var f := if name == "default" && !typeWrong && CLOUD_FINALIZER !in ic.finalizers
             then ic.finalizers + [CLOUD_FINALIZER] else ic.finalizers;
    if f == [] then ics - {name} else ics[name := ic.(finalizers := f, deleting := true)]
  }

  lemma TypeStep(c: Cluster, w: World, name: string, ic: IngressController, e: ApplicationIngress)
    requires c.platform == Some("AWS")
    ensures EnsureAwsType(w, name, ic, TypeOn(c, e)) ==
            if NoType(ic) then Step(w, Stop(Panicked))
            else if TypeDiffers(e, ic) then Step(AfterDelete(w, name), Stop(Requeue))
            else Step(w, Continue)
  {
    TypeMeans(c, e, ic);
  }

  lemma StaticStep(c: Cluster, w: World, name: string, ic: IngressController, e: ApplicationIngress)
    requires w.faults == [] && name in w.ics && w.ics[name] == ic && !ic.deleting && NameOf(e) == Some(name)
    requires c.platform == Some("AWS") ==> !NoType(ic) && !TypeDiffers(e, ic)
    ensures EnsureStatic(c, w, name, ic, Desired(c, e)) ==
            if ReplaceDue(c, e, ic) then Step(w.(ics := Replacing(c, e, name, w.ics)), Stop(Requeue))
            else Step(w, Continue)
  {
    StaticMeans(c, e, ic);
    hide ValidateStaticSpec, ValidateStaticStatus, Desired, TypeDiffers, NoType, ImmutableDiffers;
  }

  lemma PatchStep(c: Cluster, w: World, name: string, ic: IngressController, e: ApplicationIngress)
    requires name in w.ics && w.ics[name] == ic && !ic.deleting && NameOf(e) == Some(name)
    ensures var r := EnsurePatchable(c, w, name, ic, Desired(c, e));
            if NothingToPatch(c, e, ic) then r == Step(w, Continue)
            else if CrashesOnPlacement(e, ic) then r == Step(w, Stop(Panicked))
            else if w.Fails() then r == Step(w.Next(), Stop(Failed))
            else
              && r.flow == Stop(Requeue) && name in r.w.ics && OneFieldSet(c, e, ic, r.w.ics[name])
              && r.w == w.Next().(ics := w.ics[name := r.w.ics[name]])
  {
    PatchMeans(c, e, ic.spec);
    CreatedFields(c, e);
    assert BarePlacement(ic.spec) ==> PlacementDiffers(ic.spec);
    hide ValidatePatchable, Desired;
    hide SelectorDiffers, CertificateDiffers, PlacementDiffers, EndpointDiffers;
  }

  /** The checks on an existing live object, when no call fails. */
  lemma LiveMeans(c: Cluster, w: World, name: string, ic: IngressController, e: ApplicationIngress)
    requires w.faults == [] && NameOf(e) == Some(name) && name in w.ics && w.ics[name] == ic && !ic.deleting
    ensures var r := EnsureExisting(c, w, name, ic, e);
            if c.platform == Some("AWS") && NoType(ic) then r == Step(w, Stop(Panicked))
            else if ReplaceDue(c, e, ic) then r == Step(w.(ics := Replacing(c, e, name, w.ics)), Stop(Requeue))
            else if NothingToPatch(c, e, ic) then r == Step(w, Continue)
            else if CrashesOnPlacement(e, ic) then r == Step(w, Stop(Panicked))
            else
              && r.flow == Stop(Requeue) && name in r.w.ics && OneFieldSet(c, e, ic, r.w.ics[name])
              && r.w == w.(ics := w.ics[name := r.w.ics[name]])
  {
    hide EnsureAwsType, EnsureStatic, EnsurePatchable, TypeOn, Desired, OneFieldSet, NothingToPatch, CrashesOnPlacement;
    hide NoType, TypeDiffers, ImmutableDiffers;
    if c.platform == Some("AWS") { TypeStep(c, w, name, ic, e); }
    if c.platform == Some("AWS") ==> !NoType(ic) && !TypeDiffers(e, ic) {
      StaticStep(c, w, name, ic, e);
      PatchStep(c, w, name, ic, e);
    }
  }

  /** A deleting object, when no call fails. */
  lemma DeletingMeans(c: Cluster, w: World, name: string, ic: IngressController, e: ApplicationIngress)
    requires w.faults == [] && name in w.ics && w.ics[name] == ic && ic.deleting
    ensures var r := EnsureExisting(c, w, name, ic, e);
            r.flow != Continue && Recreating(c, e, name, w.ics, r.w.ics, r.flow.outcome)
  {
    CreatedFields(c, e);
    FinalizerLists.RemovePanicsIff(ic.finalizers, CLOUD_FINALIZER);
    assert FinalizerLists.RepeatsFinal(ic.finalizers, CLOUD_FINALIZER) ==> CLOUD_FINALIZER in ic.finalizers;
    hide FinalizerLists.Remove, Desired, FinalizerLists.RepeatsFinal;
    assert (w.ics - {name})[name := Created(c, e)] == w.ics[name := Created(c, e)];
  }

  /**
   * It waits for every finalizer but the cloud one; that one it takes off, once the cluster finalizer is
   * gone; and when none is left it replaces the object.
   */
  predicate Recreating(c: Cluster, e: ApplicationIngress, name: string, ics: Controllers, after: Controllers,
                       outcome: Outcome)
    requires name in ics
  {
    var f := ics[name].finalizers;
    if CLUSTER_FINALIZER in f then outcome == Requeue && after == ics
    else if FinalizerLists.RepeatsFinal(f, CLOUD_FINALIZER) then outcome == Panicked && after == ics
    else
      var rest := if CLOUD_FINALIZER in f then FinalizerLists.Remove(f, CLOUD_FINALIZER) else Some(f);
      && outcome == Requeue && rest.Some?
      && after == if rest.value == [] then ics[name := Created(c, e)]
                  else ics[name := ics[name].(finalizers := rest.value)]
  }

  // --- The entry in a pass ---

  /** A pass without failing calls gets to the entry `i`. */
  ghost predicate ReachesEntry(c: Cluster, s: Strategy, i: nat, name: string, ics: Controllers) {
    && c.Readable() && i < |s.entries| && NameOf(s.entries[i]) == Some(name) && SuffixOk(c.BaseDomain(), s.entries[i])
    && (forall j :: 0 <= j < |s.entries| ==> Accepted(s.entries[j], ics))
    && (forall j :: 0 <= j < i ==> Passes(c, c.BaseDomain(), s.entries[j], ics))
  }

  /** A pass whose calls up to the entry succeed ends as the visit does. */
  lemma PassIsVisit(c: Cluster, s: Strategy, w: World, o: Choices, i: nat, name: string) returns (m: Seen)
    requires ReachesEntry(c, s, i, name, w.ics) && Clear(w, 3 + 2 * i)
    ensures var visit := Visit(c, c.BaseDomain(), s.entries[i], After(w, 3 + 2 * i), m);
            visit.flow != Continue ==>
              Reconcile(c, Some(s), w, o) == PassResult(visit.w, visit.flow.outcome)
  {
    hide Visit, Passes, Accepted, NoNewSecond, AfterLoop;
    var base, prefix, seen := c.BaseDomain(), s.entries[..i], InitialSeen(w);
    ThreeReads(w, 2 * i);
    SecondCheckIff(s.entries, w);
    LoopIff(c, base, prefix, AfterReads(w), seen);
    LoopStopsAt(c, base, s.entries, i, AfterReads(w), seen);
    var before := VisitAll(c, base, prefix, AfterReads(w), seen);
    assert before.w == After(w, 3 + 2 * i);
    m := before.seen;
  }

  lemma ThreeReads(w: World, k: nat)
    ensures Clear(w, 3 + k)
            <==> !w.Fails() && !w.Next().Fails() && !w.Next().Next().Fails() && Clear(AfterReads(w), k)
    ensures After(w, 3 + k) == After(AfterReads(w), k)
  {
    TwoCalls(w.faults, 1 + k);
    CallsInTwo(w.Next().Next().faults, 1, k);
    OneCall(w.Next().Next().faults);
  }

  /** In particular a pass without failing calls. */
  lemma CleanPassIsVisit(c: Cluster, s: Strategy, w: World, o: Choices, i: nat, name: string) returns (m: Seen)
    requires ReachesEntry(c, s, i, name, w.ics) && w.faults == []
    ensures var visit := Visit(c, c.BaseDomain(), s.entries[i], w, m);
            visit.flow != Continue ==>
              Reconcile(c, Some(s), w, o) == PassResult(visit.w, visit.flow.outcome)
  {
    NoneFails(3 + 2 * i);
    m := PassIsVisit(c, s, w, o, i, name);
  }

  /**
   * A pass without failing calls that gets to an entry creates its missing object; waits for, unblocks or
   * replaces a deleting one; deletes a live one with a wrong type or immutable field; and otherwise sets
   * the first differing field and nothing else. Each of these requeues and touches no other object. Two
   * shapes of object panic, and nothing is written.
   */
  lemma CleanPassAtEntry(c: Cluster, s: Strategy, w: World, o: Choices, i: nat, name: string)
    requires ReachesEntry(c, s, i, name, w.ics) && w.faults == []
    ensures var r, e := Reconcile(c, Some(s), w, o), s.entries[i];
            if name !in w.ics then r.outcome == Requeue && r.w.ics == w.ics[name := Created(c, e)]
            else if w.ics[name].deleting then
              Recreating(c, e, name, w.ics, r.w.ics, r.outcome)
            else if c.platform == Some("AWS") && NoType(w.ics[name]) then r.outcome == Panicked && r.w.ics == w.ics
            else if ReplaceDue(c, e, w.ics[name]) then r.outcome == Requeue && r.w.ics == Replacing(c, e, name, w.ics)
            else if NothingToPatch(c, e, w.ics[name]) then true
            else if CrashesOnPlacement(e, w.ics[name]) then r.outcome == Panicked && r.w.ics == w.ics
            else
              && r.outcome == Requeue && name in r.w.ics && OneFieldSet(c, e, w.ics[name], r.w.ics[name])
              && r.w.ics == w.ics[name := r.w.ics[name]]
  {
    hide Reconcile, EnsureExisting, Passes, Accepted, NameOf, Desired, ReplaceDue, Replacing, OneFieldSet, Recreating;
    hide NothingToPatch, CrashesOnPlacement, NoType, NewController, Created;
    var e := s.entries[i];
    var m := CleanPassIsVisit(c, s, w, o, i, name);
    if name !in w.ics {
      CreatedFields(c, e);
    } else if w.ics[name].deleting {
      DeletingMeans(c, w, name, w.ics[name], e);
    } else {
      LiveMeans(c, w, name, w.ics[name], e);
    }
  }

  // --- How a pass ends at an entry, whatever calls fail ---

  function FailedIf(b: bool): Flow {
    if b then Stop(Failed) else Stop(Requeue)
  }

  /** How the checks of a deleting object end. */
  function DeletingFlow(f: seq<string>, faults: seq<bool>): Flow {
    if CLUSTER_FINALIZER in f then Stop(Requeue)
    else if FinalizerLists.RepeatsFinal(f, CLOUD_FINALIZER) then Stop(Panicked)
    else if CLOUD_FINALIZER in f then
      if FinalizerLists.Remove(f, CLOUD_FINALIZER) == Some([]) then FailedIf(!AllSucceed(faults, 3))
      else FailedIf(CallFails(faults))
    else if f == [] then FailedIf(!AllSucceed(faults, 2))
    else Stop(Requeue)
  }

  /** How the checks of a live object end; an error of the delete itself is only logged. */
  function LiveFlow(c: Cluster, e: ApplicationIngress, ic: IngressController, faults: seq<bool>): Flow {
    if c.platform == Some("AWS") && NoType(ic) then Stop(Panicked)
    else if c.platform == Some("AWS") && TypeDiffers(e, ic) then Stop(Requeue)
    else if ReplaceDue(c, e, ic) then
      FailedIf(NameOf(e) == Some("default") && CLOUD_FINALIZER !in ic.finalizers && CallFails(faults))
    else if NothingToPatch(c, e, ic) then Continue
    else if CrashesOnPlacement(e, ic) then Stop(Panicked)
    else FailedIf(CallFails(faults))
  }

  lemma DeletingFlows(c: Cluster, w: World, name: string, ic: IngressController, e: ApplicationIngress)
    requires name in w.ics && w.ics[name] == ic && ic.deleting
    ensures EnsureExisting(c, w, name, ic, e).flow == DeletingFlow(ic.finalizers, w.faults)
  {
    FinalizerLists.RemovePanicsIff(ic.finalizers, CLOUD_FINALIZER);
    assert FinalizerLists.RepeatsFinal(ic.finalizers, CLOUD_FINALIZER) ==> CLOUD_FINALIZER in ic.finalizers;
    TwoCalls(w.faults, 0);
    TwoCalls(w.faults, 1);
    OneCall(LaterCalls(LaterCalls(w.faults)));
    hide FinalizerLists.Remove, Desired, FinalizerLists.RepeatsFinal, AllSucceed;
  }

  lemma StaticFlow(c: Cluster, w: World, name: string, ic: IngressController, e: ApplicationIngress)
    requires name in w.ics && w.ics[name] == ic && NameOf(e) == Some(name)
    requires c.platform == Some("AWS") ==> !NoType(ic) && !TypeDiffers(e, ic)
    ensures var r := EnsureStatic(c, w, name, ic, Desired(c, e));
            if ReplaceDue(c, e, ic) then
              r.flow == FailedIf(name == "default" && CLOUD_FINALIZER !in ic.finalizers && CallFails(w.faults))
            else r == Step(w, Continue)
  {
    StaticMeans(c, e, ic);
    hide ValidateStaticSpec, ValidateStaticStatus, Desired, TypeDiffers, NoType, ImmutableDiffers;
  }

  lemma LiveFlows(c: Cluster, w: World, name: string, ic: IngressController, e: ApplicationIngress)
    requires name in w.ics && w.ics[name] == ic && !ic.deleting && NameOf(e) == Some(name)
    ensures EnsureExisting(c, w, name, ic, e).flow == LiveFlow(c, e, ic, w.faults)
  {
    hide EnsureAwsType, EnsureStatic, EnsurePatchable, TypeOn, Desired, OneFieldSet, NothingToPatch, CrashesOnPlacement;
    hide NoType, TypeDiffers, ReplaceDue, NameOf;
    if c.platform == Some("AWS") {
      TypeStep(c, w, name, ic, e);
      DueIfWrong(c, e, ic);
    }
    if c.platform == Some("AWS") ==> !NoType(ic) && !TypeDiffers(e, ic) {
      StaticFlow(c, w, name, ic, e);
      PatchStep(c, w, name, ic, e);
    }
  }

  lemma DueIfWrong(c: Cluster, e: ApplicationIngress, ic: IngressController)
    ensures c.platform == Some("AWS") && !NoType(ic) && TypeDiffers(e, ic) ==> ReplaceDue(c, e, ic)
  {
  }

  /** How the visit of an entry ends: its name, its domain, its platform and its object, in this order. */
  function EntryFlow(c: Cluster, base: string, e: ApplicationIngress, w: World): Flow {
    var name := NameOf(e);
    if name.None? then Stop(Panicked)
    else if !SuffixOk(base, e) || CallFails(w.faults) then Stop(Failed)
    else if c.platform.None? then Stop(Panicked)
    else if CallFails(LaterCalls(w.faults)) then Stop(Failed)
    else
      var faults := LaterCalls(LaterCalls(w.faults));
      if name.value !in w.ics then FailedIf(CallFails(faults))
      else if w.ics[name.value].deleting then DeletingFlow(w.ics[name.value].finalizers, faults)
      else LiveFlow(c, e, w.ics[name.value], faults)
  }

  lemma VisitFlows(c: Cluster, base: string, e: ApplicationIngress, w: World, m: Seen)
    ensures Visit(c, base, e, w, m).flow == EntryFlow(c, base, e, w)
  {
    hide EnsureExisting, DeletingFlow, LiveFlow, NameOf, Desired, HasSuffix;
    var w2 := w.Next().Next();
    if NameOf(e).Some? && NameOf(e).value in w.ics {
      var name := NameOf(e).value;
      if w.ics[name].deleting {
        DeletingFlows(c, w2, name, w.ics[name], e);
      } else {
        LiveFlows(c, w2, name, w.ics[name], e);
      }
    }
  }

  /** The loop gets to the entry, and its visit asks for another pass. */
  ghost predicate RequeuesAt(c: Cluster, base: string, entries: seq<ApplicationIngress>, w: World, i: nat)
    requires i < |entries|
  {
    GetsTo(c, base, entries, w, i) && EntryFlow(c, base, entries[i], After(w, 2 * i)) == Stop(Requeue)
  }

  lemma {:induction false} LoopRequeuesIff(c: Cluster, base: string, entries: seq<ApplicationIngress>, w: World,
                                           m: Seen)
    ensures VisitAll(c, base, entries, w, m).flow == Stop(Requeue)
            <==> exists i :: 0 <= i < |entries| && RequeuesAt(c, base, entries, w, i)
  {
    hide Visit, Passes, EntryFlow;
    if entries != [] {
      var e, rest := entries[0], entries[1..];
      var first := Visit(c, base, e, w, m);
      VisitIff(c, base, e, w, m);
      VisitFlows(c, base, e, w, m);
      assert RequeuesAt(c, base, entries, w, 0) <==> first.flow == Stop(Requeue);
      forall i | 0 <= i < |rest|
        ensures RequeuesAt(c, base, entries, w, i + 1)
            <==> first.flow == Continue && RequeuesAt(c, base, rest, After(w, 2), i)
      {
        OneEntryOn(c, base, entries, w, i);
      }
      if first.flow == Continue {
        LoopRequeuesIff(c, base, rest, first.w, first.seen);
        if i :| 0 <= i < |rest| && RequeuesAt(c, base, rest, first.w, i) {
          assert RequeuesAt(c, base, entries, w, i + 1);
        }
      }
      forall i | 0 <= i < |entries| && RequeuesAt(c, base, entries, w, i)
        ensures i == 0 || (first.flow == Continue && RequeuesAt(c, base, rest, After(w, 2), i - 1))
      {
        if i > 0 {
          OneEntryOn(c, base, entries, w, i - 1);
          assert entries[i] == rest[i - 1];
        }
      }
    }
  }

  /**
   * A pass asks for another one exactly if its reads and the check of the secondary entries let it on and
   * its loop gets to an entry whose visit does. Nothing after the loop does.
   */
  lemma PassRequeuesIff(c: Cluster, s: Strategy, w: World, o: Choices)
    ensures Reconcile(c, Some(s), w, o).outcome == Requeue
            <==> && !ReadsFail(c, w) && (forall j :: 0 <= j < |s.entries| ==> Accepted(s.entries[j], w.ics))
                 && exists i :: 0 <= i < |s.entries|
                                && RequeuesAt(c, BaseSeen(c, w), s.entries, AfterReads(w), i)
  {
    hide VisitAll, NoNewSecond, AfterLoop, RequeuesAt, Accepted;
    SecondCheckIff(s.entries, w);
    SecondFlows(s.entries, InitialSeen(w));
    LoopRequeuesIff(c, BaseSeen(c, w), s.entries, AfterReads(w), InitialSeen(w));
    var loop := Loop(c, s, w);
    AfterLoopFlows(c, s, loop.w, loop.seen, o);
  }

  lemma {:induction false} SecondFlows(entries: seq<ApplicationIngress>, m: Seen)
    ensures NoNewSecond(entries, m) in {Continue, Stop(Failed), Stop(Panicked)}
  {
    if entries != [] { SecondFlows(entries[1..], m); }
  }
}
