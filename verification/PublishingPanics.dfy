/** When a pass of the PublishingStrategy controller panics. */
module PublishingPanics {
  import opened Basics
  import opened EntryFields
  import FinalizerLists
  import opened IngressControllers
  import opened KubeApi
  import opened Publishing
  import opened PublishingFrame
  import opened PublishingConvergence
  import opened PublishingNotes
  import CloudClients

  predicate Clear(w: World, k: nat) {
    AllSucceed(w.faults, k)
  }

  /** The world after `k` calls that write nothing. */
  function After(w: World, k: nat): World {
    w.(faults := AfterCalls(w.faults, k))
  }

  // --- One object ---

  predicate ObjectPanics(c: Cluster, e: ApplicationIngress, ic: IngressController) {
    if ic.deleting then
      CLUSTER_FINALIZER !in ic.finalizers && FinalizerLists.RepeatsFinal(ic.finalizers, CLOUD_FINALIZER)
    else
      (c.platform == Some("AWS") && NoType(ic)) || (!ReplaceDue(c, e, ic) && CrashesOnPlacement(e, ic))
  }

  lemma TypeFlow(c: Cluster, w: World, name: string, ic: IngressController, e: ApplicationIngress)
    requires c.platform == Some("AWS")
    ensures EnsureAwsType(w, name, ic, TypeOn(c, e)).flow ==
            if NoType(ic) then Stop(Panicked) else if TypeDiffers(e, ic) then Stop(Requeue) else Continue
  {
    TypeMeans(c, e, ic);
    hide ValidateAwsType, TypeOn, NoType, TypeDiffers;
  }

  lemma StaticNeverPanics(c: Cluster, w: World, name: string, ic: IngressController, e: ApplicationIngress)
    requires NameOf(e) == Some(name)
    ensures var flow := EnsureStatic(c, w, name, ic, Desired(c, e)).flow;
            && flow != Stop(Panicked)
            && (flow == Continue <==>
                  || !ImmutableDiffers(c, e, ic.spec.domain, ic.spec.endpoint)
                  || (name == "default" && !ImmutableDiffers(c, e, ic.status.domain, ic.status.endpoint)))
  {
    StaticMeans(c, e, ic);
    hide ValidateStaticSpec, ValidateStaticStatus, Desired, ImmutableDiffers;
  }

  lemma PatchPanicsIff(c: Cluster, w: World, name: string, ic: IngressController, e: ApplicationIngress)
    ensures EnsurePatchable(c, w, name, ic, Desired(c, e)).flow == Stop(Panicked) <==> CrashesOnPlacement(e, ic)
  {
    PatchMeans(c, e, ic.spec);
    hide ValidatePatchable, ValidatePatchableStatus, Desired, SelectorDiffers, CertificateDiffers, EndpointDiffers;
  }

  lemma ExistingPanicsIff(c: Cluster, w: World, name: string, ic: IngressController, e: ApplicationIngress)
    requires NameOf(e) == Some(name)
    ensures EnsureExisting(c, w, name, ic, e).flow == Stop(Panicked) <==> ObjectPanics(c, e, ic)
  {
    hide TypeOn, Desired, EnsureAwsType, EnsureStatic, EnsurePatchable, NoType, TypeDiffers, ImmutableDiffers;
    hide CrashesOnPlacement, FinalizerLists.Remove, FinalizerLists.RepeatsFinal, NameOf, AfterStore, AfterDelete;
    if ic.deleting {
      DeletingPanicsIff(w, name, ic, Desired(c, e));
    } else {
      if c.platform == Some("AWS") { TypeFlow(c, w, name, ic, e); }
      StaticNeverPanics(c, w, name, ic, e);
      var aws := if c.IsAws() then EnsureAwsType(w, name, ic, TypeOn(c, e)) else Step(w, Continue);
      StaticNeverPanics(c, aws.w, name, ic, e);
      PatchPanicsIff(c, EnsureStatic(c, aws.w, name, ic, Desired(c, e)).w, name, ic, e);
    }
  }

  lemma DeletingPanicsIff(w: World, name: string, ic: IngressController, desired: Spec)
    ensures Recreate(w, name, ic, desired).flow == Stop(Panicked)
            <==> CLUSTER_FINALIZER !in ic.finalizers && FinalizerLists.RepeatsFinal(ic.finalizers, CLOUD_FINALIZER)
  {
    FinalizerLists.RemovePanicsIff(ic.finalizers, CLOUD_FINALIZER);
    assert FinalizerLists.RepeatsFinal(ic.finalizers, CLOUD_FINALIZER) ==> CLOUD_FINALIZER in ic.finalizers;
    hide FinalizerLists.Remove, FinalizerLists.RepeatsFinal, AfterStore, AfterDelete, AfterCreate, WriteAck, CreateAck;
  }

  // --- One visit and the loop ---

  predicate Passes(c: Cluster, base: string, e: ApplicationIngress, ics: Controllers) {
    && SuffixOk(base, e) && c.platform.Some?
    && NameOf(e).Some? && NameOf(e).value in ics && Settled(c, e, ics[NameOf(e).value])
  }

  predicate Panics(c: Cluster, base: string, e: ApplicationIngress, w: World) {
    || '.' !in e.dnsName
    || (SuffixOk(base, e) && Clear(w, 1) && c.platform.None?)
    || (SuffixOk(base, e) && Clear(w, 2) && NameOf(e).value in w.ics && ObjectPanics(c, e, w.ics[NameOf(e).value]))
  }

  lemma ExistingContinuesIff(c: Cluster, w: World, name: string, ic: IngressController, e: ApplicationIngress)
    requires NameOf(e) == Some(name)
    ensures var r := EnsureExisting(c, w, name, ic, e);
            (r.flow == Continue <==> Settled(c, e, ic)) && (r.flow == Continue ==> r.w == w)
  {
    hide Desired, TypeOn, AfterStore, AfterDelete, AfterCreate, CopyField, WriteAck, CreateAck;
    hide FinalizerLists.Remove, NameOf;
    hide ValidateStaticSpec, ValidateStaticStatus, ValidatePatchable, ValidateAwsType, ValidatePatchableStatus;
  }

  lemma DottedName(e: ApplicationIngress)
    ensures NameOf(e).None? <==> '.' !in e.dnsName
    ensures GetIngressName(e.dnsName).None? <==> '.' !in e.dnsName
    ensures !e.isDefault ==> NameOf(e) == GetIngressName(e.dnsName)
  {
  }

  lemma VisitIff(c: Cluster, base: string, e: ApplicationIngress, w: World, m: Seen)
    ensures var r := Visit(c, base, e, w, m);
            && (r.flow == Continue <==> Clear(w, 2) && Passes(c, base, e, w.ics))
            && (r.flow == Continue ==> r.w == After(w, 2))
            && (r.flow == Stop(Panicked) <==> Panics(c, base, e, w))
  {
    hide EnsureExisting, Settled, ObjectPanics, Desired, NameOf, HasSuffix;
    DottedName(e);
    OneCall(w.faults);
    TwoCalls(w.faults, 0);
    if NameOf(e).Some? && NameOf(e).value in w.ics {
      var name := NameOf(e).value;
      ExistingPanicsIff(c, w.Next().Next(), name, w.ics[name], e);
      ExistingContinuesIff(c, w.Next().Next(), name, w.ics[name], e);
    }
  }

  /** The loop gets to the entry `i`: two calls for each entry before it succeed, and each of those passes. */
  ghost predicate GetsTo(c: Cluster, base: string, entries: seq<ApplicationIngress>, w: World, i: nat)
    requires i <= |entries|
  {
    Clear(w, 2 * i) && forall j :: 0 <= j < i ==> Passes(c, base, entries[j], w.ics)
  }

  ghost predicate PanicsAt(c: Cluster, base: string, entries: seq<ApplicationIngress>, w: World, i: nat)
    requires i < |entries|
  {
    GetsTo(c, base, entries, w, i) && Panics(c, base, entries[i], After(w, 2 * i))
  }

  lemma OneEntryOn(c: Cluster, base: string, entries: seq<ApplicationIngress>, w: World, i: nat)
    requires i < |entries|
    ensures GetsTo(c, base, entries, w, i + 1)
            <==> Clear(w, 2) && Passes(c, base, entries[0], w.ics) && GetsTo(c, base, entries[1..], After(w, 2), i)
    ensures After(w, 2 * (i + 1)) == After(After(w, 2), 2 * i)
  {
    hide Passes, AllSucceed, AfterCalls;
    CallsInTwo(w.faults, 2, 2 * i);
    var rest := entries[1..];
    assert forall j :: 0 <= j < i ==> rest[j] == entries[j + 1];
    if GetsTo(c, base, rest, After(w, 2), i) && Passes(c, base, entries[0], w.ics) {
      forall j | 0 <= j < i + 1 ensures Passes(c, base, entries[j], w.ics) {
        assert j > 0 ==> Passes(c, base, rest[j - 1], w.ics);
      }
    }
  }

  /** The loop completes exactly if it gets past the last entry, and panics exactly at an entry it gets to. */
  lemma {:induction false} LoopIff(c: Cluster, base: string, entries: seq<ApplicationIngress>, w: World, m: Seen)
    ensures var r := VisitAll(c, base, entries, w, m);
            && (r.flow == Continue <==> GetsTo(c, base, entries, w, |entries|))
            && (r.flow == Continue ==> r.w == After(w, 2 * |entries|))
            && (r.flow == Stop(Panicked) <==> exists i :: 0 <= i < |entries| && PanicsAt(c, base, entries, w, i))
  {
    hide Visit, Passes, Panics;
    if entries != [] {
      var e, rest := entries[0], entries[1..];
      var first := Visit(c, base, e, w, m);
      VisitIff(c, base, e, w, m);
      assert PanicsAt(c, base, entries, w, 0) <==> first.flow == Stop(Panicked);
      forall i | 0 <= i < |rest|
        ensures PanicsAt(c, base, entries, w, i + 1)
            <==> first.flow == Continue && PanicsAt(c, base, rest, After(w, 2), i)
      {
        OneEntryOn(c, base, entries, w, i);
      }
      OneEntryOn(c, base, entries, w, |rest|);
      assert 2 * |entries| == 2 * (|rest| + 1);
      if first.flow == Continue {
        LoopIff(c, base, rest, first.w, first.seen);
        if i :| 0 <= i < |rest| && PanicsAt(c, base, rest, first.w, i) {
          assert PanicsAt(c, base, entries, w, i + 1);
        }
      }
      forall i | 0 <= i < |entries| && PanicsAt(c, base, entries, w, i)
        ensures i == 0 || (first.flow == Continue && PanicsAt(c, base, rest, After(w, 2), i - 1))
      {
        if i > 0 {
          OneEntryOn(c, base, entries, w, i - 1);
          assert entries[i] == rest[i - 1];
        }
      }
    }
  }

  // --- The check before the loop ---

  /** A secondary entry that is owned already. */
  predicate Accepted(e: ApplicationIngress, ics: Controllers) {
    e.isDefault || (NameOf(e).Some? && IsOwned(ics, NameOf(e).value))
  }

  predicate Undotted(e: ApplicationIngress) {
    !e.isDefault && '.' !in e.dnsName
  }

  ghost predicate FirstUndotted(entries: seq<ApplicationIngress>, ics: Controllers, i: nat)
    requires i < |entries|
  {
    Undotted(entries[i]) && forall j :: 0 <= j < i ==> Accepted(entries[j], ics)
  }

  lemma {:induction false} SecondCheckIff(entries: seq<ApplicationIngress>, w: World)
    ensures NoNewSecond(entries, InitialSeen(w)) == Continue
            <==> forall j :: 0 <= j < |entries| ==> Accepted(entries[j], w.ics)
    ensures NoNewSecond(entries, InitialSeen(w)) == Stop(Panicked)
            <==> exists i :: 0 <= i < |entries| && FirstUndotted(entries, w.ics, i)
  {
    hide GetIngressName, NameOf;
    if entries != [] {
      var e, rest := entries[0], entries[1..];
      DottedName(e);
      SecondCheckIff(rest, w);
      assert Undotted(e) <==> FirstUndotted(entries, w.ics, 0);
      assert forall j :: 0 <= j < |rest| ==> rest[j] == entries[j + 1];
      forall i | 0 <= i < |rest|
        ensures FirstUndotted(entries, w.ics, i + 1) <==> Accepted(e, w.ics) && FirstUndotted(rest, w.ics, i)
      {
        if Accepted(e, w.ics) && FirstUndotted(rest, w.ics, i) {
          forall j | 0 <= j < i + 1 ensures Accepted(entries[j], w.ics) {
            assert j > 0 ==> Accepted(rest[j - 1], w.ics);
          }
        }
        if FirstUndotted(entries, w.ics, i + 1) {
          forall j | 0 <= j < i ensures Accepted(rest[j], w.ics) { assert Accepted(entries[j + 1], w.ics); }
        }
      }
      if i :| 0 <= i < |rest| && FirstUndotted(rest, w.ics, i) {
        assert Accepted(e, w.ics) ==> FirstUndotted(entries, w.ics, i + 1);
      }
      if i :| 0 <= i < |entries| && FirstUndotted(entries, w.ics, i) {
        if i > 0 { assert FirstUndotted(entries, w.ics, i - 1 + 1) && FirstUndotted(rest, w.ics, i - 1); }
      }
    }
  }

  // --- The steps after the loop ---

  /** The calls of the annotation step, as `NoteCalls`, for the names the entries refer to. */
  ghost function CallsForNotes(entries: seq<ApplicationIngress>, ics: Controllers, order: seq<string>): nat
    decreases order
  {
    if order == [] then 0
    else if !Refers(entries, order[0]) then CallsForNotes(entries, ics, order[1..])
    else if HasNote(ics, order[0]) then 1
    else 2 + CallsForNotes(entries, ics, order[1..])
  }

  lemma {:induction false} NoteCallsOfEntries(entries: seq<ApplicationIngress>, ics: Controllers, m: Seen,
                                              order: seq<string>)
    requires forall n :: Published(m, n) <==> Refers(entries, n)
    ensures NoteCalls(ics, m, order) == CallsForNotes(entries, ics, order)
    decreases order
  {
    if order != [] {
      assert Published(m, order[0]) <==> Refers(entries, order[0]);
      NoteCallsOfEntries(entries, ics, m, order[1..]);
    }
  }

  /**
   * The platform is read and is not there, or no client can be built for it, or the switch itself
   * panics.
   */
  predicate AliasPanics(c: Cluster, w: World, listening: string, cloud: CloudSide) {
    && Clear(w, 1)
    && (|| c.platform !in {Some("AWS"), Some("GCP")}
        || !cloud.usable
        || !AllSucceed(w.Next().faults, if c.platform == Some("AWS") then 2 else 5)
        || (listening in {"internal", "external"} && cloud.answer == Crashed))
  }

  lemma AliasPanicsIff(c: Cluster, w: World, listening: string, cloud: CloudSide)
    ensures AliasScope(c, w, listening, cloud).flow == Stop(Panicked) <==> AliasPanics(c, w, listening, cloud)
  {
    OneCall(w.faults);
    if c.platform.Some? { CloudClients.ClientIff(c.platform.value, cloud.usable, w.Next().faults); }
  }

  /** After a completed loop a pass panics only in the alias step, once the annotation step let it on. */
  lemma AfterLoopPanicsIff(c: Cluster, s: Strategy, w: World, m: Seen, o: Choices)
    requires Listing(o.annotate, m.Keys) && PublishedLive(m, w.ics)
    ensures AfterLoop(c, s, w, m, o).outcome == Panicked
            <==> && Clear(w, NoteCalls(w.ics, m, o.annotate))
                 && AliasPanics(c, After(w, NoteCalls(w.ics, m, o.annotate)), s.listening, o.cloud)
  {
    hide Annotate, AliasScope, AliasPanics, DeleteUnpublished, Disown;
    var notes := Annotate(w, m, o.annotate);
    AnnotateIff(w, m, o.annotate);
    AnnotateFlows(w, m, o.annotate);
    AliasPanicsIff(c, notes.w, s.listening, o.cloud);
    AliasSeesFaultsOnly(c, notes.w, After(w, NoteCalls(w.ics, m, o.annotate)), s.listening, o.cloud);
    var alias := AliasScope(c, notes.w, s.listening, o.cloud);
    DeleteFlows(alias.w, m, o.delete);
    DisownFlows(alias.w);
  }

  lemma AliasSeesFaultsOnly(c: Cluster, a: World, b: World, listening: string, cloud: CloudSide)
    ensures a.faults == b.faults ==> (AliasPanics(c, a, listening, cloud) <==> AliasPanics(c, b, listening, cloud))
  {
  }

  lemma DisownFlows(w: World)
    ensures Disown(w).flow in {Continue, Stop(Failed)}
  {
  }

  // --- The pass ---

  /** The loop completes, the annotation step gets on, and the alias step panics. */
  ghost predicate PanicsAfterLoop(c: Cluster, s: Strategy, w: World, o: Choices) {
    var calls := CallsForNotes(s.entries, w.ics, o.annotate);
    var looped := After(AfterReads(w), 2 * |s.entries|);
    && GetsTo(c, BaseSeen(c, w), s.entries, AfterReads(w), |s.entries|)
    && Clear(looped, calls)
    && AliasPanics(c, After(looped, calls), s.listening, o.cloud)
  }

  /**
   * A pass panics exactly if, having got its strategy, it reads the base domain of a host shorter than
   * `api.`; or, listing the objects, it comes to an undotted secondary entry before any secondary
   * entry that is not owned; or, all secondary entries being owned, its loop gets to an entry that
   * panics (one without a dot; a missing platform status; an object that is deleting with finalizers
   * on which Remove panics, has an endpoint without AWS parameters, or a node placement without a
   * selector); or its loop completes, the annotations are made, and the alias step finds no platform
   * status, cannot build its client, or panics in the switch.
   */
  lemma PassPanicsIff(c: Cluster, s: Strategy, w: World, o: Choices)
    requires ValidOrders(c, Some(s), w, o)
    ensures Reconcile(c, Some(s), w, o).outcome == Panicked
            <==> || HostPanics(c, w)
                 || (!ReadsFail(c, w) && exists i :: 0 <= i < |s.entries| && FirstUndotted(s.entries, w.ics, i))
                 || (&& !ReadsFail(c, w) && (forall j :: 0 <= j < |s.entries| ==> Accepted(s.entries[j], w.ics))
                     && (|| (exists i :: 0 <= i < |s.entries|
                                         && PanicsAt(c, BaseSeen(c, w), s.entries, AfterReads(w), i))
                         || PanicsAfterLoop(c, s, w, o)))
  {
    hide VisitAll, NoNewSecond, AfterLoop, PanicsAt, GetsTo, FirstUndotted, Accepted, AliasPanics, AllSucceed;
    SecondCheckIff(s.entries, w);
    LoopIff(c, BaseSeen(c, w), s.entries, AfterReads(w), InitialSeen(w));
    var loop := Loop(c, s, w);
    if !ReadsFail(c, w) && NoNewSecond(s.entries, InitialSeen(w)) == Continue && loop.flow == Continue {
      LoopFacts(c, s, w);
      NoteCallsOfEntries(s.entries, w.ics, loop.seen, o.annotate);
      AfterLoopPanicsIff(c, s, loop.w, loop.seen, o);
    }
  }
}
