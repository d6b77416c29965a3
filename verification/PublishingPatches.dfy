/**
 * What a pass changes of a live object, whatever calls fail: it deletes it exactly for a wrong type or
 * immutable field, and it writes its spec only to set the first field that differs.
 */
module PublishingPatches {
  import opened Basics
  import opened EntryFields
  import opened IngressControllers
  import opened KubeApi
  import opened Publishing
  import opened PublishingFrame
  import opened PublishingConvergence
  import opened PublishingPanics
  import opened PublishingEntry

  // --- Deleting ---

  predicate Live(ics: Controllers, name: string) {
    name in ics && !ics[name].deleting
  }

  ghost predicate OneEntry(s: Strategy, e: ApplicationIngress, name: string) {
    forall i :: 0 <= i < |s.entries| && NameOf(s.entries[i]) == Some(name) ==> s.entries[i] == e
  }

  lemma StaticKeepsLive(c: Cluster, w: World, name: string, ic: IngressController, e: ApplicationIngress)
    requires NameOf(e) == Some(name) && name in w.ics && w.ics[name] == ic && !ic.deleting
    requires c.platform == Some("AWS") ==> NoType(ic) || !TypeDiffers(e, ic)
    requires !ReplaceDue(c, e, ic)
    ensures var r := EnsureExisting(c, w, name, ic, e);
            Live(r.w.ics, name) && (r.flow == Continue ==> r.w == w)
  {
    if c.platform == Some("AWS") { TypeMeans(c, e, ic); }
    StaticMeans(c, e, ic);
    hide ValidateAwsType, ValidateStaticSpec, ValidateStaticStatus, ValidatePatchable, ValidatePatchableStatus, TypeOn;
    hide NoType, TypeDiffers, ImmutableDiffers, Desired;
  }

  lemma VisitKeepsLive(c: Cluster, base: string, e: ApplicationIngress, w: World, m: Seen, name: string)
    requires Live(w.ics, name) && (NameOf(e) == Some(name) ==> !ReplaceDue(c, e, w.ics[name]))
    ensures var r := Visit(c, base, e, w, m);
            Live(r.w.ics, name) && (r.flow == Continue ==> r.w.ics == w.ics)
  {
    hide EnsureExisting, ReplaceDue, NameOf, Desired, Settled, HasSuffix;
    VisitTouchesItsName(c, base, e, w, m);
    VisitContinues(c, base, e, w, m);
    if NameOf(e) == Some(name) {
      NotDueType(c, e, w.ics[name]);
      StaticKeepsLive(c, w.Next().Next(), name, w.ics[name], e);
    } else {
      assert SameAt(w.ics, Visit(c, base, e, w, m).w.ics, name);
    }
  }

  lemma NotDueType(c: Cluster, e: ApplicationIngress, ic: IngressController)
    requires !ReplaceDue(c, e, ic)
    ensures c.platform == Some("AWS") ==> NoType(ic) || !TypeDiffers(e, ic)
  {
  }

  lemma {:induction false} LoopKeepsLive(c: Cluster, base: string, entries: seq<ApplicationIngress>, w: World, m: Seen,
                                         e: ApplicationIngress, name: string)
    requires forall i :: 0 <= i < |entries| && NameOf(entries[i]) == Some(name) ==> entries[i] == e
    requires Live(w.ics, name) && !ReplaceDue(c, e, w.ics[name])
    ensures Live(VisitAll(c, base, entries, w, m).w.ics, name)
  {
    hide Visit, ReplaceDue, NameOf;
    if entries != [] {
      var first := Visit(c, base, entries[0], w, m);
      VisitKeepsLive(c, base, entries[0], w, m, name);
      if first.flow == Continue { LoopKeepsLive(c, base, entries[1..], first.w, first.seen, e, name); }
    }
  }

  /** Whatever fails, a pass leaves a published live object live if it has no cause to delete it. */
  lemma PassKeepsLive(c: Cluster, s: Strategy, w: World, o: Choices, e: ApplicationIngress, name: string)
    requires OneEntry(s, e, name) && NameOf(e) == Some(name) && e in s.entries
    requires Live(w.ics, name) && !ReplaceDue(c, e, w.ics[name])
    ensures Live(Reconcile(c, Some(s), w, o).w.ics, name)
  {
    hide VisitAll, NoNewSecond, AfterLoop, ReplaceDue, NameOf, Settled;
    if !w.Fails() && !ReadsFail(c, w) && NoNewSecond(s.entries, InitialSeen(w)) == Continue {
      var loop := Loop(c, s, w);
      LoopFacts(c, s, w);
      LoopKeepsLive(c, BaseSeen(c, w), s.entries, AfterReads(w), InitialSeen(w), e, name);
      if loop.flow == Continue {
        assert Refers(s.entries, name);
        AfterLoopKeepsPublished(c, s, loop.w, loop.seen, o, name);
      }
    }
  }

  /**
   * A pass without failing calls that gets to the entry of a live object deletes or marks it exactly if,
   * on AWS, its load balancer type is not the entry's (without parameters: if the entry asks for an
   * NLB), or its domain, or before 4.10 its scope, is not the entry's, which for `default` has to be so in
   * the status too.
   */
  lemma ReplacesIff(c: Cluster, s: Strategy, w: World, o: Choices, i: nat, name: string)
    requires ReachesEntry(c, s, i, name, w.ics) && w.faults == [] && OneEntry(s, s.entries[i], name)
    requires Live(w.ics, name)
    ensures var r, e := Reconcile(c, Some(s), w, o), s.entries[i];
            && (!Live(r.w.ics, name) <==> ReplaceDue(c, e, w.ics[name]))
            && (ReplaceDue(c, e, w.ics[name]) ==>
                  r.outcome == Requeue && r.w.ics == Replacing(c, e, name, w.ics))
  {
    hide Reconcile, ReplaceDue, Passes, Accepted, NoType, NameOf;
    var e := s.entries[i];
    CleanPassAtEntry(c, s, w, o, i, name);
    DueHasType(c, e, w.ics[name]);
    if !ReplaceDue(c, e, w.ics[name]) { PassKeepsLive(c, s, w, o, e, name); }
  }

  lemma DueHasType(c: Cluster, e: ApplicationIngress, ic: IngressController)
    ensures ReplaceDue(c, e, ic) ==> !(c.platform == Some("AWS") && NoType(ic))
  {
  }

  // --- Writing the spec ---

  lemma ExistingWritesOneField(c: Cluster, w: World, name: string, ic: IngressController, e: ApplicationIngress)
    requires NameOf(e) == Some(name) && Live(w.ics, name) && w.ics[name] == ic
    ensures var r := EnsureExisting(c, w, name, ic, e);
            name in r.w.ics && r.w.ics[name].spec != ic.spec ==>
              r.flow == Stop(Requeue) && OneFieldSet(c, e, ic, r.w.ics[name])
  {
    hide ValidateAwsType, ValidateStaticSpec, ValidateStaticStatus, ValidatePatchable, ValidatePatchableStatus, TypeOn;
    hide Desired, OneFieldSet, EnsurePatchable;
    PatchStep(c, w, name, ic, e);
  }

  lemma VisitWritesOneField(c: Cluster, base: string, e: ApplicationIngress, w: World, m: Seen, name: string)
    requires Live(w.ics, name)
    ensures var r := Visit(c, base, e, w, m);
            name in r.w.ics && r.w.ics[name].spec != w.ics[name].spec ==>
              && r.flow == Stop(Requeue) && NameOf(e) == Some(name) && OneFieldSet(c, e, w.ics[name], r.w.ics[name])
  {
    hide EnsureExisting, NameOf, Desired, HasSuffix, OneFieldSet;
    VisitTouchesItsName(c, base, e, w, m);
    if NameOf(e) == Some(name) {
      ExistingWritesOneField(c, w.Next().Next(), name, w.ics[name], e);
    } else {
      assert SameAt(w.ics, Visit(c, base, e, w, m).w.ics, name);
    }
  }

  lemma {:induction false} LoopWritesOneField(c: Cluster, base: string, entries: seq<ApplicationIngress>, w: World,
                                              m: Seen, name: string) returns (i: nat)
    requires Live(w.ics, name)
    ensures var r := VisitAll(c, base, entries, w, m);
            name in r.w.ics && r.w.ics[name].spec != w.ics[name].spec ==>
              && r.flow == Stop(Requeue) && i < |entries| && NameOf(entries[i]) == Some(name)
              && OneFieldSet(c, entries[i], w.ics[name], r.w.ics[name])
  {
    hide Visit, NameOf, OneFieldSet;
    i := 0;
    if entries != [] {
      var first := Visit(c, base, entries[0], w, m);
      VisitWritesOneField(c, base, entries[0], w, m, name);
      VisitContinues(c, base, entries[0], w, m);
      if first.flow == Continue {
        i := LoopWritesOneField(c, base, entries[1..], first.w, first.seen, name);
        i := i + 1;
      }
    }
  }

  /**
   * Whatever calls fail: if a pass leaves a live object with another spec, it requeues, and the object is
   * the old one with the first field that differs from its entry set to the entry's value. Domain,
   * replicas, the other fields, annotations, finalizers, status and deletion mark are as they were.
   */
  lemma PassWritesOneField(c: Cluster, s: Strategy, w: World, o: Choices, name: string)
    requires Live(w.ics, name)
    ensures var r := Reconcile(c, Some(s), w, o);
            name in r.w.ics && r.w.ics[name].spec != w.ics[name].spec ==>
              && r.outcome == Requeue
              && exists i :: 0 <= i < |s.entries| && NameOf(s.entries[i]) == Some(name)
                             && OneFieldSet(c, s.entries[i], w.ics[name], r.w.ics[name])
  {
    hide VisitAll, NoNewSecond, AfterLoop, NameOf, OneFieldSet, Settled;
    if !w.Fails() && !ReadsFail(c, w) && NoNewSecond(s.entries, InitialSeen(w)) == Continue {
      var loop := Loop(c, s, w);
      LoopFacts(c, s, w);
      var i := LoopWritesOneField(c, BaseSeen(c, w), s.entries, AfterReads(w), InitialSeen(w), name);
      if loop.flow == Continue { AfterLoopWritesNoSpec(c, s, loop.w, loop.seen, o); }
    }
  }

  // --- Runs ---

  /** Every patchable field is the old one or the entry's, and of the rest only annotations differ. */
  predicate Merged(c: Cluster, e: ApplicationIngress, a: IngressController, b: IngressController) {
    && b.finalizers == a.finalizers && b.deleting == a.deleting && b.status == a.status
    && b.spec.domain == a.spec.domain && b.spec.replicas == a.spec.replicas
    && b.spec.routeSelector in {a.spec.routeSelector, WantedSelector(e)}
    && b.spec.certificate in {a.spec.certificate, Some(e.certificate)}
    && b.spec.placement in {a.spec.placement, WantedPlacement()}
    && b.spec.endpoint in {a.spec.endpoint, WantedEndpoint(c, e)}
  }

  lemma OneFieldMerges(c: Cluster, e: ApplicationIngress, a: IngressController, b: IngressController)
    requires OneFieldSet(c, e, a, b)
    ensures Merged(c, e, a, b)
  {
  }

  lemma MergedTwice(c: Cluster, e: ApplicationIngress, x: IngressController, y: IngressController, z: IngressController)
    requires Merged(c, e, x, y) && Merged(c, e, y, z)
    ensures Merged(c, e, x, z)
  {
  }

  /** The pass over a quiet cluster, for one entry's object. */
  lemma QuietPassMerges(c: Cluster, s: Strategy, w: World, o: Choices, i: nat, name: string)
    requires Quiet(c, s, w) && i < |s.entries| && NameOf(s.entries[i]) == Some(name)
    ensures name in w.ics && name in Reconcile(c, Some(s), w, o).w.ics
    ensures Merged(c, s.entries[i], w.ics[name], Reconcile(c, Some(s), w, o).w.ics[name])
  {
    hide Reconcile, Merged, OneFieldSet, Desired, NameOf;
    var r, e := Reconcile(c, Some(s), w, o), s.entries[i];
    assert ReadyEntry(c, e, w.ics);
    RestStays(c, s, w, o, i, name);
    PassWritesOneField(c, s, w, o, name);
    var a, b := w.ics[name], r.w.ics[name];
    if b.spec == a.spec {
      SameSpecMerges(c, e, a, b);
    } else {
      var j :| 0 <= j < |s.entries| && NameOf(s.entries[j]) == Some(name) && OneFieldSet(c, s.entries[j], a, b);
      assert j == i;
      OneFieldMerges(c, e, a, b);
    }
  }

  lemma SameSpecMerges(c: Cluster, e: ApplicationIngress, a: IngressController, b: IngressController)
    requires b.spec == a.spec && b.finalizers == a.finalizers && b.deleting == a.deleting && b.status == a.status
    ensures Merged(c, e, a, b)
  {
  }

  lemma RestStays(c: Cluster, s: Strategy, w: World, o: Choices, i: nat, name: string)
    requires Quiet(c, s, w) && i < |s.entries| && NameOf(s.entries[i]) == Some(name) && name in w.ics
    ensures var ics := Reconcile(c, Some(s), w, o).w.ics;
            && name in ics && ics[name].finalizers == w.ics[name].finalizers
            && ics[name].deleting == w.ics[name].deleting && ics[name].status == w.ics[name].status
  {
    hide VisitAll, AfterLoop, Desired, ValidatePatchable, Settled, NameOf;
    ReadyPassesSecondCheck(c, s.entries, w);
    BaseKeepsSuffixes(c, s, w);
    if !w.Fails() && !ReadsFail(c, w) {
      var loop := Loop(c, s, w);
      var j, field := LoopReady(c, BaseSeen(c, w), s.entries, AfterReads(w), InitialSeen(w));
      if loop.flow == Continue {
        LoopFacts(c, s, w);
        assert Refers(s.entries, name);
        AfterLoopKeepsPublished(c, s, loop.w, loop.seen, o, name);
      } else if loop.flow == Stop(Requeue) {
        EntryIsReady(c, s, w, j);
      }
    }
  }

  /**
   * Over every run of passes over a quiet cluster, with any failures: an entry's object keeps its domain,
   * replicas, finalizers, status and deletion mark, and each of its four patchable fields is at any time
   * either what it was or what the entry asks for.
   */
  lemma {:induction false} QuietRunMerges(c: Cluster, s: Strategy, w: World, ps: seq<PassInput>, i: nat, name: string)
    requires Quiet(c, s, w) && i < |s.entries| && NameOf(s.entries[i]) == Some(name)
    ensures Quiet(c, s, RunPasses(c, s, w, ps))
    ensures name in w.ics && name in RunPasses(c, s, w, ps).ics
    ensures Merged(c, s.entries[i], w.ics[name], RunPasses(c, s, w, ps).ics[name])
  {
    hide Reconcile, Merged, Quiet, NameOf;
    QuietHas(c, s, w, i, name);
    if ps == [] {
      SameSpecMerges(c, s.entries[i], w.ics[name], w.ics[name]);
    } else {
      var last := ps[|ps| - 1];
      var before := RunPasses(c, s, w, ps[..|ps| - 1]);
      var start := before.(faults := last.faults);
      QuietRunMerges(c, s, w, ps[..|ps| - 1], i, name);
      MarksIgnoreFaults(c, s, before, last.faults);
      QuietPass(c, s, start, last.choices);
      QuietPassMerges(c, s, start, last.choices, i, name);
      MergedTwice(c, s.entries[i], w.ics[name], before.ics[name], RunPasses(c, s, w, ps).ics[name]);
    }
  }

  lemma QuietHas(c: Cluster, s: Strategy, w: World, i: nat, name: string)
    requires Quiet(c, s, w) && i < |s.entries| && NameOf(s.entries[i]) == Some(name)
    ensures name in w.ics
  {
    assert ReadyEntry(c, s.entries[i], w.ics);
  }
}
