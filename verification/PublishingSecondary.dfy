/**
 * Secondary entries: once the object of one is gone every pass stops before its loop, so an update
 * that deletes the object is lost unless the cloud finalizer holds it.
 */
module PublishingSecondary {
  import opened Basics
  import FinalizerLists
  import opened IngressControllers
  import opened KubeApi
  import opened Publishing
  import opened PublishingFrame
  import opened PublishingConvergence
  import opened PublishingPanics
  import opened PublishingEntry
  import opened PublishingInterleaving
  import opened PublishingHandshake

  // --- A secondary entry without an owned object stops everything ---

  lemma StuckPass(c: Cluster, s: Strategy, w: World, o: Choices, i: nat)
    requires i < |s.entries| && !Accepted(s.entries[i], w.ics)
    ensures var r := Reconcile(c, Some(s), w, o);
            r.w.ics == w.ics && r.outcome in {Failed, Panicked}
  {
    hide NoNewSecond, Accepted, VisitAll, AfterLoop;
    SecondCheckIff(s.entries, w);
    SecondFlows(s.entries, InitialSeen(w));
  }

  /** In every run of passes, with any failures, nothing changes and every pass fails or panics. */
  lemma {:induction false} StuckForGood(c: Cluster, s: Strategy, w: World, ps: seq<PassInput>, i: nat)
    requires i < |s.entries| && !Accepted(s.entries[i], w.ics)
    ensures RunPasses(c, s, w, ps).ics == w.ics
    ensures ps != [] ==>
              RunPass(c, s, RunPasses(c, s, w, ps[..|ps| - 1]), ps[|ps| - 1]).outcome in {Failed, Panicked}
  {
    hide Reconcile, Accepted;
    if ps != [] {
      var init, last := ps[..|ps| - 1], ps[|ps| - 1];
      StuckForGood(c, s, w, init, i);
      StuckPass(c, s, RunPasses(c, s, w, init).(faults := last.faults), last.choices, i);
    }
  }

  // --- Updating an immutable field of a secondary entry ---

  /** The loop deletes a live object like this. */
  predicate ToBeDeleted(c: Cluster, e: ApplicationIngress, ic: IngressController) {
    && !ic.deleting
    && (|| (c.IsAws() && ValidateAwsType(ic, TypeOn(c, e)) == Fail)
        || (&& (c.IsAws() ==> ValidateAwsType(ic, TypeOn(c, e)) == Pass)
            && !ValidateStaticSpec(c.gates, ic, Desired(c, e))))
  }

  /** The one secondary entry of its name. */
  ghost predicate OneSecondary(s: Strategy, e: ApplicationIngress, name: string) {
    && e in s.entries && !e.isDefault && NameOf(e) == Some(name) && name != DEFAULT
    && forall i :: 0 <= i < |s.entries| && NameOf(s.entries[i]) == Some(name) ==> s.entries[i] == e
  }

  /** The object is gone or still the one to be deleted, without the cloud finalizer. */
  ghost predicate Unreplaced(a: IngressController, name: string, ics: Controllers) {
    name in ics ==>
      var ic := ics[name];
      && ic.spec == a.spec && ic.status == a.status && CLOUD_FINALIZER !in ic.finalizers
      && (ic.deleting ==> ic.finalizers != [])
  }

  lemma ValidatorsSeeSpecAndStatus(c: Cluster, e: ApplicationIngress, a: IngressController, b: IngressController)
    requires a.spec == b.spec && a.status == b.status && !b.deleting && ToBeDeleted(c, e, a)
    ensures ToBeDeleted(c, e, b)
  {
  }

  lemma VisitUnreplaced(c: Cluster, base: string, e: ApplicationIngress, w: World, m: Seen, a: IngressController,
                        name: string)
    requires !e.isDefault && NameOf(e) == Some(name) && name != DEFAULT && ToBeDeleted(c, e, a)
    requires name in w.ics && Unreplaced(a, name, w.ics)
    ensures var r := Visit(c, base, e, w, m);
            r.flow != Continue && Unreplaced(a, name, r.w.ics)
  {
    hide ValidateAwsType, ValidateStaticSpec, ValidateStaticStatus, Desired, TypeOn, NameOf, ToBeDeleted;
    var w2, ic := w.Next().Next(), w.ics[name];
    if !w.Fails() && !w.Next().Fails() && c.platform.Some? {
      if ic.deleting {
        assert Recreate(w2, name, ic, Desired(c, e)) == Step(w2, Stop(Requeue));
      } else {
        ValidatorsSeeSpecAndStatus(c, e, a, ic);
        DeletedNotReplaced(c, w2, name, ic, e);
      }
    }
  }

  lemma DeletedNotReplaced(c: Cluster, w: World, name: string, ic: IngressController, e: ApplicationIngress)
    requires name != DEFAULT && ToBeDeleted(c, e, ic)
    ensures EnsureExisting(c, w, name, ic, e) == Step(AfterDelete(w, name), Stop(Requeue))
  {
  }

  lemma {:induction false} LoopUnreplaced(c: Cluster, base: string, entries: seq<ApplicationIngress>, w: World, m: Seen,
                                          e: ApplicationIngress, a: IngressController, name: string)
    requires !e.isDefault && NameOf(e) == Some(name) && name != DEFAULT && ToBeDeleted(c, e, a)
    requires forall i :: 0 <= i < |entries| && NameOf(entries[i]) == Some(name) ==> entries[i] == e
    requires name in w.ics && Unreplaced(a, name, w.ics)
    ensures var r := VisitAll(c, base, entries, w, m);
            (e in entries ==> r.flow != Continue) && Unreplaced(a, name, r.w.ics)
  {
    hide Visit, ToBeDeleted, NameOf;
    if entries != [] {
      var first := Visit(c, base, entries[0], w, m);
      if NameOf(entries[0]) == Some(name) {
        VisitUnreplaced(c, base, e, w, m, a, name);
      } else {
        VisitTouchesItsName(c, base, entries[0], w, m);
        VisitContinues(c, base, entries[0], w, m);
        assert SameAt(w.ics, first.w.ics, name);
        if first.flow == Continue {
          LoopUnreplaced(c, base, entries[1..], first.w, first.seen, e, a, name);
        }
      }
    }
  }

  lemma PassUnreplaced(c: Cluster, s: Strategy, w: World, o: Choices, e: ApplicationIngress, a: IngressController,
                       name: string)
    requires OneSecondary(s, e, name) && ToBeDeleted(c, e, a) && Unreplaced(a, name, w.ics)
    ensures Unreplaced(a, name, Reconcile(c, Some(s), w, o).w.ics)
  {
    hide VisitAll, NoNewSecond, AfterLoop, ToBeDeleted, Unreplaced;
    if name !in w.ics {
      var i :| 0 <= i < |s.entries| && s.entries[i] == e;
      StuckPass(c, s, w, o, i);
    } else if !ReadsFail(c, w) && NoNewSecond(s.entries, InitialSeen(w)) == Continue {
      SameObjects(a, name, w.ics, AfterReads(w).ics);
      LoopUnreplaced(c, BaseSeen(c, w), s.entries, AfterReads(w), InitialSeen(w), e, a, name);
    }
  }

  lemma SameObjects(a: IngressController, name: string, x: Controllers, y: Controllers)
    requires x == y && Unreplaced(a, name, x)
    ensures Unreplaced(a, name, y)
  {
  }

  lemma DropUnreplaced(w: World, a: IngressController, name: string, dropped: string)
    requires Unreplaced(a, name, w.ics)
    ensures Unreplaced(a, name, DropClusterFinalizer(w, dropped).ics)
  {
  }

  lemma {:induction false} ActionsUnreplaced(c: Cluster, s: Strategy, w: World, actions: seq<Action>,
                                             e: ApplicationIngress, a: IngressController, name: string)
    requires OneSecondary(s, e, name) && ToBeDeleted(c, e, a) && Unreplaced(a, name, w.ics)
    ensures Unreplaced(a, name, RunActions(c, s, w, actions).ics)
    decreases actions
  {
    hide Reconcile, ToBeDeleted, Unreplaced, OneSecondary, DropClusterFinalizer;
    if actions != [] {
      match actions[0] {
        case Drop(dropped) => DropUnreplaced(w, a, name, dropped);
        case OnePass(input) =>
          SameObjects(a, name, w.ics, w.(faults := input.faults).ics);
          PassUnreplaced(c, s, w.(faults := input.faults), input.choices, e, a, name);
      }
      ActionsUnreplaced(c, s, Act(c, s, actions[0], w), actions[1..], e, a, name);
    }
  }

  // --- When the update survives ---

  /** A pass without failing calls gets to the entry `i`, a secondary one. */
  ghost predicate Reaches(c: Cluster, s: Strategy, i: nat, name: string, ics: Controllers) {
    && ReachesEntry(c, s, i, name, ics) && OneSecondary(s, s.entries[i], name)
    && (forall j :: 0 <= j < i ==> NameOf(s.entries[j]) != Some(name))
  }

  lemma SameButOne(c: Cluster, s: Strategy, i: nat, name: string, a: Controllers, b: Controllers)
    requires Reaches(c, s, i, name, a) && SameOutside(a, b, {name})
    requires name in a ==> name in b && b[name].Owned() == a[name].Owned()
    ensures Reaches(c, s, i, name, b)
  {
    hide Settled, SuffixOk;
    forall j | 0 <= j < |s.entries| ensures Accepted(s.entries[j], b) {
      assert Accepted(s.entries[j], a);
      var first := GetIngressName(s.entries[j].dnsName);
      assert first.Some? ==> SameAt(a, b, first.value) || first.value == name;
    }
    forall j | 0 <= j < i ensures Passes(c, c.BaseDomain(), s.entries[j], b) {
      assert Passes(c, c.BaseDomain(), s.entries[j], a) && SameAt(a, b, NameOf(s.entries[j]).value);
    }
  }

  /** The first clean pass deletes or marks the object. */
  lemma FirstPass(c: Cluster, s: Strategy, w: World, input: PassInput, i: nat, name: string)
    requires input.faults == [] && Reaches(c, s, i, name, w.ics) && name in w.ics
    requires ToBeDeleted(c, s.entries[i], w.ics[name])
    ensures RunPass(c, s, w, input).w.ics == AfterDelete(w.(faults := []), name).ics
  {
    hide Reconcile, ToBeDeleted, Passes, Accepted, EnsureExisting, NameOf;
    var start := w.(faults := []);
    var m := CleanPassIsVisit(c, s, start, input.choices, i, name);
    DeletedNotReplaced(c, start, name, w.ics[name], s.entries[i]);
  }

  lemma RecreateDrained(w: World, name: string, ic: IngressController, desired: Spec)
    requires w.faults == [] && name in w.ics && w.ics[name] == ic
    requires ic.deleting && ic.finalizers == [CLOUD_FINALIZER]
    ensures Recreate(w, name, ic, desired) == Step(w.(ics := w.ics[name := NewController(desired)]), Stop(Requeue))
  {
    FinalizerLists.RemoveOnDistinct(ic.finalizers, CLOUD_FINALIZER);
    assert Without([CLOUD_FINALIZER], CLOUD_FINALIZER) == [];
    var w' := AfterStore(w, name, ic.(finalizers := []));
    assert w'.ics == w.ics - {name};
    assert (w.ics - {name})[name := NewController(desired)] == w.ics[name := NewController(desired)];
  }

  /** The second one, once the other controller is done, replaces it. */
  lemma SecondPass(c: Cluster, s: Strategy, w: World, input: PassInput, i: nat, name: string)
    requires input.faults == [] && Reaches(c, s, i, name, w.ics) && name in w.ics
    requires w.ics[name].deleting && w.ics[name].finalizers == [CLOUD_FINALIZER]
    ensures RunPass(c, s, w, input).w.ics == w.ics[name := NewController(Desired(c, s.entries[i]))]
  {
    hide Reconcile, Passes, Accepted, NameOf, Recreate, NewController;
    var start := w.(faults := []);
    var m := CleanPassIsVisit(c, s, start, input.choices, i, name);
    RecreateDrained(start, name, w.ics[name], Desired(c, s.entries[i]));
  }

  // --- The update in every interleaving ---

  /** The phases of a secondary object that carries the cloud finalizer. */
  ghost predicate AtPhase(c: Cluster, e: ApplicationIngress, name: string, ics: Controllers, p: Phase) {
    && name in ics
    && var ic := ics[name];
       match p
       case Live => ToBeDeleted(c, e, ic) && OurFinalizers(ic.finalizers) && CLOUD_FINALIZER in ic.finalizers
       case Draining =>
         && ic.deleting && OurFinalizers(ic.finalizers)
         && CLOUD_FINALIZER in ic.finalizers && CLUSTER_FINALIZER in ic.finalizers
       case Drained => ic.deleting && ic.finalizers == [CLOUD_FINALIZER]
       case Fresh => !ic.deleting && ic.spec == Desired(c, e)
       case Gone => false
  }

  lemma ReachedEntry(c: Cluster, s: Strategy, i: nat, name: string, ics: Controllers)
    requires Reaches(c, s, i, name, ics)
    ensures i < |s.entries| && OneSecondary(s, s.entries[i], name)
    ensures name in ics && ics[name].Owned()
  {
    assert Accepted(s.entries[i], ics);
  }

  /** A clean pass marks the object, waits, or replaces it. */
  lemma CleanPassMoves(c: Cluster, s: Strategy, w: World, input: PassInput, i: nat, name: string, p: Phase)
    returns (q: Phase)
    requires input.faults == [] && Reaches(c, s, i, name, w.ics)
    requires AtPhase(c, s.entries[i], name, w.ics, p) && p != Fresh
    ensures var ics := RunPass(c, s, w, input).w.ics;
            AtPhase(c, s.entries[i], name, ics, q) && Reaches(c, s, i, name, ics)
    ensures Rank(q) >= RankAfter(Rank(p), OnePass(input))
  {
    hide Reaches, Reconcile, Visit, ToBeDeleted, Desired;
    ReachedEntry(c, s, i, name, w.ics);
    var ic, next := w.ics[name], RunPass(c, s, w, input).w;
    match p {
      case Live =>
        FirstPass(c, s, w, input, i, name);
        q := Marked(ic.finalizers);
        if q == Drained { OnlyCloudLeft(ic.finalizers); }
      case Draining =>
        q := Draining;
        DrainingStays(c, s, w, input, i, name);
      case Drained =>
        q := Fresh;
        SecondPass(c, s, w, input, i, name);
        assert NewController(Desired(c, s.entries[i])).Owned();
    }
    SameButOne(c, s, i, name, w.ics, next.ics);
  }

  lemma DrainingStays(c: Cluster, s: Strategy, w: World, input: PassInput, i: nat, name: string)
    requires input.faults == [] && Reaches(c, s, i, name, w.ics)
    requires AtPhase(c, s.entries[i], name, w.ics, Draining)
    ensures RunPass(c, s, w, input).w.ics == w.ics
  {
    hide Reconcile, Passes, Accepted, NameOf;
    var start := w.(faults := []);
    var m := CleanPassIsVisit(c, s, start, input.choices, i, name);
    assert Recreate(start, name, w.ics[name], Desired(c, s.entries[i])) == Step(start, Stop(Requeue));
  }

  lemma DropMoves(c: Cluster, s: Strategy, w: World, i: nat, name: string, p: Phase) returns (q: Phase)
    requires Reaches(c, s, i, name, w.ics) && AtPhase(c, s.entries[i], name, w.ics, p)
    ensures var ics := DropClusterFinalizer(w, name).ics;
            AtPhase(c, s.entries[i], name, ics, q) && Reaches(c, s, i, name, ics)
    ensures Rank(q) >= RankAfter(Rank(p), Drop(name))
  {
    hide Reaches, Desired, OneSecondary;
    ReachedEntry(c, s, i, name, w.ics);
    q := if p == Draining then Drained else p;
    var ic := w.ics[name];
    var dropped := Without(ic.finalizers, CLUSTER_FINALIZER);
    if p in {Live, Draining} { WithoutKeepsOurs(ic.finalizers, CLUSTER_FINALIZER); }
    if p == Live { ValidatorsSeeSpecAndStatus(c, s.entries[i], ic, ic.(finalizers := dropped)); }
    if p == Draining { OnlyCloudLeft(dropped); }
    if p == Drained { CloudStays(); }
    DropTouchesItsName(w, name);
    SameButOne(c, s, i, name, w.ics, DropClusterFinalizer(w, name).ics);
  }

  lemma {:induction false} LoopFresh(c: Cluster, base: string, entries: seq<ApplicationIngress>, w: World, m: Seen,
                                     e: ApplicationIngress, name: string)
    requires NameOf(e) == Some(name) && AtPhase(c, e, name, w.ics, Fresh)
    requires forall i :: 0 <= i < |entries| && NameOf(entries[i]) == Some(name) ==> entries[i] == e
    ensures SameAt(w.ics, VisitAll(c, base, entries, w, m).w.ics, name)
  {
    hide Visit, NameOf;
    if entries != [] {
      var first := Visit(c, base, entries[0], w, m);
      if NameOf(entries[0]) == Some(name) {
        CreatedIsNeverRewritten(c, base, e, w, m);
      } else {
        VisitTouchesItsName(c, base, entries[0], w, m);
      }
      assert SameAt(w.ics, first.w.ics, name);
      if first.flow == Continue {
        LoopFresh(c, base, entries[1..], first.w, first.seen, e, name);
      }
    }
  }

  /** Whatever fails, a pass leaves the desired object live and with its spec. */
  lemma FreshStays(c: Cluster, s: Strategy, w: World, o: Choices, e: ApplicationIngress, name: string)
    requires OneSecondary(s, e, name) && AtPhase(c, e, name, w.ics, Fresh)
    ensures AtPhase(c, e, name, Reconcile(c, Some(s), w, o).w.ics, Fresh)
  {
    hide VisitAll, NoNewSecond, AfterLoop, Desired, Settled;
    if !w.Fails() && !ReadsFail(c, w) && NoNewSecond(s.entries, InitialSeen(w)) == Continue {
      var loop := Loop(c, s, w);
      LoopFacts(c, s, w);
      LoopFresh(c, BaseSeen(c, w), s.entries, AfterReads(w), InitialSeen(w), e, name);
      if loop.flow == Continue {
        assert Refers(s.entries, name);
        AfterLoopKeepsPublished(c, s, loop.w, loop.seen, o, name);
      }
    }
  }

  lemma {:induction false} UpdateProgresses(c: Cluster, s: Strategy, w: World, i: nat, name: string,
                                            actions: seq<Action>, p: Phase)
    returns (q: Phase)
    requires Reaches(c, s, i, name, w.ics) && AtPhase(c, s.entries[i], name, w.ics, p)
    requires CallsSucceed(actions) && DropsOnly(actions, name)
    ensures AtPhase(c, s.entries[i], name, RunActions(c, s, w, actions).ics, q)
    ensures Rank(q) >= Progress(Rank(p), actions)
    decreases actions
  {
    hide Reconcile, AtPhase, Reaches, DropClusterFinalizer, OneSecondary;
    ReachedEntry(c, s, i, name, w.ics);
    q := p;
    if p == Fresh {
      FreshForGood(c, s, w, actions, i, name);
      ProgressIsMonotone(3, 3, actions);
    } else if actions != [] {
      var a := actions[0];
      assert a in actions && forall x :: x in actions[1..] ==> x in actions;
      match a {
        case Drop(_) => q := DropMoves(c, s, w, i, name, p);
        case OnePass(input) => q := CleanPassMoves(c, s, w, input, i, name, p);
      }
      ProgressIsMonotone(RankAfter(Rank(p), a), Rank(q), actions[1..]);
      q := UpdateProgresses(c, s, Act(c, s, a, w), i, name, actions[1..], q);
    }
  }

  lemma {:induction false} FreshForGood(c: Cluster, s: Strategy, w: World, actions: seq<Action>, i: nat, name: string)
    requires i < |s.entries| && OneSecondary(s, s.entries[i], name) && AtPhase(c, s.entries[i], name, w.ics, Fresh)
    ensures AtPhase(c, s.entries[i], name, RunActions(c, s, w, actions).ics, Fresh)
    decreases actions
  {
    hide Reconcile, Desired, OneSecondary;
    if actions != [] {
      if actions[0].OnePass? {
        var input := actions[0].input;
        FreshStays(c, s, w.(faults := input.faults), input.choices, s.entries[i], name);
      }
      FreshForGood(c, s, Act(c, s, actions[0], w), actions[1..], i, name);
    }
  }

  /**
   * With the cloud finalizer on it a secondary object whose immutable field changed is replaced by the
   * desired one in every interleaving whose calls succeed, once a pass, a later drop of its cluster
   * finalizer and a later pass have happened.
   */
  lemma UpdateCompletes(c: Cluster, s: Strategy, w: World, i: nat, name: string, actions: seq<Action>)
    requires Reaches(c, s, i, name, w.ics) && AtPhase(c, s.entries[i], name, w.ics, Live)
    requires CallsSucceed(actions) && DropsOnly(actions, name) && PassDropPass(actions)
    ensures AtPhase(c, s.entries[i], name, RunActions(c, s, w, actions).ics, Fresh)
  {
    hide AtPhase, Reaches;
    var q := UpdateProgresses(c, s, w, i, name, actions, Live);
    var x, y, z :| 0 <= x < y < z < |actions| && actions[x].OnePass? && actions[y].Drop? && actions[z].OnePass?;
    PassDropPassEnds(0, actions, x, y, z);
    assert q == Fresh;
  }

  /** Without the cloud finalizer one clean pass and the other controller lose the object, for good. */
  lemma UpdateIsLost(c: Cluster, s: Strategy, w: World, input: PassInput, i: nat, name: string, later: seq<PassInput>)
    requires input.faults == [] && Reaches(c, s, i, name, w.ics) && name in w.ics
    requires ToBeDeleted(c, s.entries[i], w.ics[name])
    requires OurFinalizers(w.ics[name].finalizers) && CLOUD_FINALIZER !in w.ics[name].finalizers
    ensures var lost := RunActions(c, s, w, [OnePass(input), Drop(name)]);
            lost.ics == w.ics - {name} && RunPasses(c, s, lost, later).ics == w.ics - {name}
  {
    hide Reconcile, ToBeDeleted, Passes;
    FirstPass(c, s, w, input, i, name);
    NothingLeft(w.ics[name].finalizers);
    PassDrop(c, s, w, input, name);
    var lost := DropClusterFinalizer(RunPass(c, s, w, input).w, name);
    assert lost.ics == w.ics - {name};
    StuckForGood(c, s, lost, later, i);
  }

  /** The first `k` calls succeed and the next one fails. */
  function FailsAt(k: nat): seq<bool> {
    if k == 0 then [true] else [false] + FailsAt(k - 1)
  }

  lemma {:induction false} CallsBefore(k: nat, n: nat)
    requires k <= n
    ensures AllSucceed(FailsAt(n), k) && AfterCalls(FailsAt(n), k) == FailsAt(n - k)
  {
    if k > 0 {
      assert LaterCalls(FailsAt(n)) == FailsAt(n - 1);
      CallsBefore(k - 1, n - 1);
    }
  }

  /**
   * Even with the cloud finalizer one failing call loses the object for good: the Create, once the
   * drained object has been deleted.
   */
  lemma FailedCreateLoses(c: Cluster, s: Strategy, w: World, o: Choices, i: nat, name: string, later: seq<PassInput>)
    requires Reaches(c, s, i, name, w.ics) && AtPhase(c, s.entries[i], name, w.ics, Drained)
    ensures var lost := RunPass(c, s, w, PassInput(FailsAt(3 + 2 * i + 4), o)).w;
            lost.ics == w.ics - {name} && RunPasses(c, s, lost, later).ics == w.ics - {name}
  {
    hide Reconcile, Passes, Accepted, NameOf, Recreate, Desired;
    var start := w.(faults := FailsAt(3 + 2 * i + 4));
    CallsBefore(3 + 2 * i, 3 + 2 * i + 4);
    var m := PassIsVisit(c, s, start, o, i, name);
    var reached := After(start, 3 + 2 * i);
    FourCalls(reached.faults);
    CreateFails(reached.Next().Next(), name, w.ics[name], Desired(c, s.entries[i]));
    var lost := RunPass(c, s, w, PassInput(start.faults, o)).w;
    assert lost.ics == w.ics - {name};
    NotAccepted(s.entries[i], lost.ics, name);
    StuckForGood(c, s, lost, later, i);
  }

  lemma NotAccepted(e: ApplicationIngress, ics: Controllers, name: string)
    requires !e.isDefault && NameOf(e) == Some(name) && name !in ics
    ensures !Accepted(e, ics)
  {
  }

  lemma FourCalls(faults: seq<bool>)
    requires faults == FailsAt(4)
    ensures !CallFails(faults) && !CallFails(LaterCalls(faults))
    ensures LaterCalls(LaterCalls(faults)) == [false, false, true]
  {
    assert FailsAt(4) == [false] + FailsAt(3) && FailsAt(3) == [false] + FailsAt(2);
    assert FailsAt(2) == [false] + FailsAt(1) && FailsAt(1) == [false] + FailsAt(0);
  }

  lemma CreateFails(w: World, name: string, ic: IngressController, desired: Spec)
    requires w.faults == [false, false, true] && name in w.ics && w.ics[name] == ic
    requires ic.deleting && ic.finalizers == [CLOUD_FINALIZER]
    ensures var r := Recreate(w, name, ic, desired);
            r.w.ics == w.ics - {name} && r.flow == Stop(Failed)
  {
    FinalizerLists.RemoveOnDistinct(ic.finalizers, CLOUD_FINALIZER);
    assert Without([CLOUD_FINALIZER], CLOUD_FINALIZER) == [];
    var w' := AfterStore(w, name, ic.(finalizers := []));
    assert w'.ics == w.ics - {name} && w'.faults == [false, true];
  }

  /**
   * Changing an immutable field of a secondary entry. The cloud finalizer, which this controller never
   * adds to a secondary object, decides: with it every interleaving whose calls succeed replaces the
   * object once a pass, a drop and a pass have happened; without it no interleaving at all, with any
   * failures and whatever else the other controller works on, brings it to the desired spec.
   */
  lemma UpdateSurvivesIff(c: Cluster, s: Strategy, w: World, i: nat, name: string)
    requires Reaches(c, s, i, name, w.ics) && name in w.ics && ToBeDeleted(c, s.entries[i], w.ics[name])
    requires OurFinalizers(w.ics[name].finalizers)
    ensures (forall actions :: CallsSucceed(actions) && DropsOnly(actions, name) && PassDropPass(actions) ==>
                               AtDesired(c, s.entries[i], name, RunActions(c, s, w, actions).ics))
            <==> CLOUD_FINALIZER in w.ics[name].finalizers
    ensures (exists actions :: AtDesired(c, s.entries[i], name, RunActions(c, s, w, actions).ics))
            <==> CLOUD_FINALIZER in w.ics[name].finalizers
  {
    hide Reaches, ToBeDeleted, Reconcile, Desired, OneSecondary;
    ReachedEntry(c, s, i, name, w.ics);
    var e, a := s.entries[i], w.ics[name];
    var input := PassInput([], Choices([], [], CloudSide(true, Switched)));
    var actions := [OnePass(input), Drop(name), OnePass(input)];
    assert PassDropPass(actions) by {
      assert actions[0].OnePass? && actions[1].Drop? && actions[2].OnePass?;
    }
    if CLOUD_FINALIZER in a.finalizers {
      forall actions | CallsSucceed(actions) && DropsOnly(actions, name) && PassDropPass(actions)
        ensures AtDesired(c, e, name, RunActions(c, s, w, actions).ics)
      {
        UpdateCompletes(c, s, w, i, name, actions);
      }
      assert AtDesired(c, e, name, RunActions(c, s, w, actions).ics);
    } else {
      forall actions ensures !AtDesired(c, e, name, RunActions(c, s, w, actions).ics) {
        NeverDesired(c, s, w, i, name, actions);
      }
    }
  }

  predicate AtDesired(c: Cluster, e: ApplicationIngress, name: string, ics: Controllers) {
    name in ics && !ics[name].deleting && ics[name].spec == Desired(c, e)
  }

  lemma NeverDesired(c: Cluster, s: Strategy, w: World, i: nat, name: string, actions: seq<Action>)
    requires Reaches(c, s, i, name, w.ics) && name in w.ics && ToBeDeleted(c, s.entries[i], w.ics[name])
    requires CLOUD_FINALIZER !in w.ics[name].finalizers
    ensures !AtDesired(c, s.entries[i], name, RunActions(c, s, w, actions).ics)
  {
    hide Reconcile, Desired;
    var e, a := s.entries[i], w.ics[name];
    ActionsUnreplaced(c, s, w, actions, e, a, name);
    if a.spec == Desired(c, e) { GeneratedPassesAllChecks(c, e, a); }
  }
}
